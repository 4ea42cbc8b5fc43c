/**
 What goes to the consumer and what goes to the child: the reserved fault
 slot, the order of delivery, the write fault that cleanup cannot hide, and
 the frames written after a latch. All of it over every interleaving.
 */
module TransportFlow {
  import opened Wrappers
  import opened Transport

  // ---- latches: how one step may change them ----

  predicate LatchesGrow(l: Latches, l': Latches) {
    && (l.interrupted ==> l'.interrupted)
    && (l.ingressFailed ==> l'.ingressFailed)
    && (l.drained ==> l'.drained)
    && (l'.writeFaultFirst ==> l.writeFaultFirst || (!l.interrupted && l'.ingressFailed))
    && (l.writeFaultFirst ==> l'.writeFaultFirst)
  }

  lemma {:induction false} CallLatches(cap: nat, m: Mail, l: Latches, p: Pipe, k: nat, call: Call, choice: Choice)
    requires AdvanceCall(cap, m, l, p, k, call, choice).CallEffect?
    ensures var r := AdvanceCall(cap, m, l, p, k, call, choice);
      && LatchesGrow(l, r.l) && r.l.interrupted == l.interrupted
      && r.p.written == p.written && r.p.writer == p.writer && r.call.restore == call.restore
      && (r.p.slot == p.slot || r.p.slot == Some(k))
  {
    match call.pc
    case FirstInterrupt | FirstIngress | Allocating | Reserving | SecondInterrupt | SecondIngress | Enqueuing =>
    case AwaitingWrite =>
    case _ => FailureLatches(m, l, p, call, choice);
  }

  lemma {:induction false} FailureLatches(m: Mail, l: Latches, p: Pipe, call: Call, choice: Choice)
    requires AdvanceFailure(m, l, p, call, choice).CallEffect?
    ensures var r := AdvanceFailure(m, l, p, call, choice);
      LatchesGrow(l, r.l) && r.l.interrupted == l.interrupted && r.p == p && r.call.restore == call.restore
  {
  }

  /** The reader has fixed whether it will publish a fault. */
  function Decision(reader: ReaderPc): Option<bool> {
    match reader
    case Latching(notify) => Some(notify)
    case Draining(notify) => Some(notify)
    case Failing(notify, _) => Some(notify)
    case Publishing(notify) => Some(notify)
    case Ended(notify) => Some(notify)
    case _ => None
  }

  /** A fault is suppressed only on an interruption that no write failure preceded. */
  predicate FaultKept(l: Latches, reader: ReaderPc) {
    && (l.writeFaultFirst ==> l.ingressFailed)
    && (reader.SawInterrupt? ==> l.interrupted)
    && (Decision(reader) == Some(false) ==> l.interrupted && !l.writeFaultFirst)
  }

  lemma {:induction false} FaultKeptReader(cap: nat, m: Mail, e: Events, l: Latches, reader: ReaderPc,
                                           input: Option<Line>, pick: nat)
    requires cap > 0 && FaultKept(l, reader)
    requires AdvanceReader(cap, m, e, l, reader, input, pick).ReaderEffect?
    ensures var r := AdvanceReader(cap, m, e, l, reader, input, pick); FaultKept(r.l, r.reader) && LatchesGrow(l, r.l)
  {
  }

  // ---- the event queue ----

  /** Everything accepted so far is delivered or queued, in order; the fault, if any, is last. */
  predicate InOrder(cap: nat, e: Events, reader: ReaderPc) {
    if reader == Ended(true) then
      e.delivered + e.queue == EventsOf(e.log) + [Fault] && |e.queue| <= cap
    else
      && e.delivered + e.queue == EventsOf(e.log) && |e.queue| <= cap - 1
      && (reader.Offering? ==> |e.queue| <= cap - 2 && RouteOf(reader.line).ToConsumer?)
  }

  lemma {:induction false} EventsOfSnoc(log: seq<Line>, line: Line)
    ensures EventsOf(log + [line]) == EventsOf(log) + (if RouteOf(line).ToConsumer? then [RouteOf(line).event] else [])
  {
    assert (log + [line])[..|log|] == log;
  }

  lemma {:induction false} InOrderReader(cap: nat, m: Mail, e: Events, l: Latches, reader: ReaderPc,
                                         input: Option<Line>, pick: nat)
    requires cap > 0 && InOrder(cap, e, reader)
    requires AdvanceReader(cap, m, e, l, reader, input, pick).ReaderEffect?
    ensures var r := AdvanceReader(cap, m, e, l, reader, input, pick); InOrder(cap, r.e, r.reader)
  {
    match reader
    case Reading =>
      if input.Some? {
        EventsOfSnoc(e.log, input.value);
      }
    case Offering(line) =>
      EventsOfSnoc(e.log, line);
      assert e.delivered + (e.queue + [RouteOf(line).event]) == (e.delivered + e.queue) + [RouteOf(line).event];
    case Publishing(notify) =>
      assert e.delivered + (e.queue + [Fault]) == (e.delivered + e.queue) + [Fault];
    case _ =>
  }

  // ---- the frames ----

  /** An ordinary frame given to the child with the ingress latch up. */
  predicate LateOrdinary(f: Frame) {
    f.latched && !f.restore
  }

  /** At most one late ordinary frame and at most one frame after an interruption, each already past its check. */
  predicate FewLate(p: Pipe, l: Latches, calls: seq<Call>) {
    && (forall i, j :: 0 <= i < j < |p.written| && LateOrdinary(p.written[i]) ==> p.written[j].restore)
    && (forall i :: 0 <= i < |p.written| && p.written[i].interrupted ==> i == |p.written| - 1)
    && (forall i :: 0 <= i < |p.written| && LateOrdinary(p.written[i]) ==>
          l.ingressFailed && (p.writer.Writing? ==> p.writer.call < |calls| && calls[p.writer.call].restore))
    && (forall i :: 0 <= i < |p.written| && p.written[i].interrupted ==>
          l.interrupted && !p.writer.Passed? && !p.writer.Writing?)
    && (p.slot.Some? ==> p.slot.value < |calls|)
    && (InHandOf(p).Some? ==> InHandOf(p).value < |calls|)
  }

  lemma {:induction false} FewLateWriter(p: Pipe, l: Latches, calls: seq<Call>, yes: bool)
    requires FewLate(p, l, calls)
    requires var c := InHandOf(p); AdvanceWriter(p, l, c.Some? && c.value < |calls|
                                                 && calls[c.value].restore, yes).PipeEffect?
    ensures var c := InHandOf(p); FewLate(AdvanceWriter(p, l, c.Some? && c.value < |calls|
                                                        && calls[c.value].restore, yes).p, l, calls)
  {
  }

  // ---- every reachable state ----

  predicate Flowing(s: State) {
    && s.cap > 0
    && InOrder(s.cap, s.e, s.reader)
    && FaultKept(s.l, s.reader)
    && FewLate(s.p, s.l, s.calls)
  }

  lemma {:induction false} FlowingCall(s: State, k: nat, choice: Choice)
    requires Flowing(s) && Do(s, CallStep(k, choice)).Some?
    ensures Flowing(Do(s, CallStep(k, choice)).value)
  {
    CallLatches(s.cap, s.m, s.l, s.p, k, s.calls[k], choice);
    var s' := Do(s, CallStep(k, choice)).value;
    assert forall j :: 0 <= j < |s.calls| ==> s'.calls[j].restore == s.calls[j].restore;
  }

  lemma {:induction false} FlowingDo(s: State, step: Step)
    requires Flowing(s) && Do(s, step).Some?
    ensures Flowing(Do(s, step).value)
  {
    match step
    case Begin(_, _) =>
    case CallStep(k, choice) => FlowingCall(s, k, choice);
    case ReaderStep(input, pick) =>
      InOrderReader(s.cap, s.m, s.e, s.l, s.reader, input, pick);
      FaultKeptReader(s.cap, s.m, s.e, s.l, s.reader, input, pick);
    case WriterStep(yes) => FewLateWriter(s.p, s.l, s.calls, yes);
    case Consume =>
      assert (s.e.delivered + [s.e.queue[0]]) + s.e.queue[1..] == s.e.delivered + s.e.queue;
    case Interrupt =>
  }

  lemma {:induction false} FlowingPlay(cap: nat, steps: seq<Step>)
    requires cap > 0 && Play(Init(cap), steps).Some?
    ensures Flowing(Play(Init(cap), steps).value)
    decreases |steps|
  {
    if steps != [] {
      var before := steps[..|steps| - 1];
      FlowingPlay(cap, before);
      FlowingDo(Play(Init(cap), before).value, steps[|steps| - 1]);
    }
  }

  // ---- theorems ----

  lemma {:induction false} NoFaultRouted(log: seq<Line>)
    ensures Fault !in EventsOf(log)
    decreases |log|
  {
    if log != [] {
      NoFaultRouted(log[..|log| - 1]);
    }
  }

  function NonFaults(queue: seq<Incoming>): nat {
    if queue == [] then 0 else NonFaults(queue[1..]) + (if queue[0].Fault? then 0 else 1)
  }

  lemma {:induction false} NonFaultsBound(queue: seq<Incoming>)
    ensures NonFaults(queue) <= |queue|
    ensures Fault in queue ==> NonFaults(queue) < |queue|
    decreases |queue|
  {
    if queue != [] {
      NonFaultsBound(queue[1..]);
    }
  }

  /**
   The reserved slot. In every interleaving at most `EVENTS - 1` ordinary
   messages are queued; an offer that passed its check and the final fault
   both find room; and what the consumer has received is an in-order prefix
   of the routed messages followed by at most one fault.
   */
  lemma {:induction false} FaultSlotIsReserved(cap: nat, steps: seq<Step>)
    requires cap >= 2 && Play(Init(cap), steps).Some?
    ensures var s := Play(Init(cap), steps).value;
      && NonFaults(s.e.queue) <= cap - 1
      && (s.reader.Offering? || s.reader.Publishing? ==> |s.e.queue| < cap)
      && s.e.delivered <= EventsOf(s.e.log) + [Fault] && Fault !in EventsOf(s.e.log)
  {
    FlowingPlay(cap, steps);
    var s := Play(Init(cap), steps).value;
    NoFaultRouted(s.e.log);
    NonFaultsBound(s.e.queue);
    var all := s.e.delivered + s.e.queue;
    assert all[..|s.e.delivered|] == s.e.delivered;
    if s.reader == Ended(true) && s.e.queue != [] {
      assert all[|all| - 1] == s.e.queue[|s.e.queue| - 1] == Fault;
    }
  }

  /**
   A write failure latched before any interruption is never hidden: once the
   reader has ended, the fault is the last thing queued or delivered. A fault
   is missing only after an interruption that no write failure preceded.
   */
  lemma {:induction false} CleanupCannotHideAWriteFault(cap: nat, steps: seq<Step>)
    requires cap >= 2 && Play(Init(cap), steps).Some? && Play(Init(cap), steps).value.reader.Ended?
    ensures var s := Play(Init(cap), steps).value;
      && (s.l.writeFaultFirst ==> s.e.delivered + s.e.queue == EventsOf(s.e.log) + [Fault])
      && (s.e.delivered + s.e.queue != EventsOf(s.e.log) + [Fault] ==> s.l.interrupted && !s.l.writeFaultFirst)
  {
    FlowingPlay(cap, steps);
  }

  /**
   An ordinary frame that reaches the child after the ingress latch is the
   last ordinary one: only restore and cancel frames follow it. A frame that
   reaches it after an interruption is the last of all.
   */
  lemma {:induction false} FewFramesAfterALatch(cap: nat, steps: seq<Step>)
    requires cap >= 2 && Play(Init(cap), steps).Some?
    ensures var w := Play(Init(cap), steps).value.p.written;
      && (forall i, j :: 0 <= i < j < |w| && w[i].latched && !w[i].restore ==> w[j].restore)
      && (forall i :: 0 <= i < |w| && w[i].interrupted ==> i == |w| - 1)
  {
    FlowingPlay(cap, steps);
    var w := Play(Init(cap), steps).value.p.written;
    assert forall i :: 0 <= i < |w| ==> (LateOrdinary(w[i]) <==> w[i].latched && !w[i].restore);
  }

  /** The lines that are no reply: all but those without a method that carry a numeric id. */
  function NoReplies(log: seq<Line>): seq<Line> {
    if log == [] then []
    else
      var last := log[|log| - 1];
      NoReplies(log[..|log| - 1]) + (if last.Message? && last.name.None? && last.id.Num? then [] else [last])
  }

  lemma {:induction false} EventsArrive(log: seq<Line>)
    ensures |EventsOf(log)| == |NoReplies(log)|
    ensures forall k :: 0 <= k < |EventsOf(log)| ==> Arrives(NoReplies(log)[k], EventsOf(log)[k])
    decreases |log|
  {
    if log != [] {
      EventsArrive(log[..|log| - 1]);
    }
  }

  /** Every message the consumer has received is the line sent in its place, as what it is, and no reply is. */
  lemma {:induction false} DeliveredAsSent(cap: nat, steps: seq<Step>, k: nat)
    requires cap >= 2 && Play(Init(cap), steps).Some?
    requires k < |Play(Init(cap), steps).value.e.delivered| && Play(Init(cap), steps).value.e.delivered[k] != Fault
    ensures var e := Play(Init(cap), steps).value.e;
      k < |NoReplies(e.log)| && Arrives(NoReplies(e.log)[k], e.delivered[k])
  {
    FaultSlotIsReserved(cap, steps);
    EventsArrive(Play(Init(cap), steps).value.e.log);
  }

  /** A call that begins too late: before its first check, or refused by it. */
  predicate TooLate(l: Latches, call: Call) {
    && call.id == 0
    && (|| (l.interrupted && (call.pc.FirstInterrupt? || call.pc.Refused?))
        || (l.ingressFailed && !call.restore && (call.pc.FirstInterrupt? || call.pc.FirstIngress? || call.pc.Refused?)))
  }

  lemma {:induction false} ReaderLatches(cap: nat, m: Mail, e: Events, l: Latches, reader: ReaderPc,
                                         input: Option<Line>, pick: nat)
    requires cap > 0 && AdvanceReader(cap, m, e, l, reader, input, pick).ReaderEffect?
    ensures LatchesGrow(l, AdvanceReader(cap, m, e, l, reader, input, pick).l)
  {
  }

  lemma {:induction false} TooLateStep(s: State, step: Step, k: nat)
    requires s.cap > 0 && k < |s.calls| && TooLate(s.l, s.calls[k]) && Do(s, step).Some?
    ensures var s' := Do(s, step).value; k < |s'.calls| && TooLate(s'.l, s'.calls[k])
  {
    match step
    case CallStep(j, choice) => CallLatches(s.cap, s.m, s.l, s.p, j, s.calls[j], choice);
    case ReaderStep(input, pick) => ReaderLatches(s.cap, s.m, s.e, s.l, s.reader, input, pick);
    case _ =>
  }

  /**
   A request begun after an interruption, or an ordinary one after the ingress
   latch, never takes an id: whatever happens next, it can only be refused.
   */
  lemma {:induction false} LateRequestsAreRefused(s: State, k: nat, more: seq<Step>)
    requires s.cap > 0 && k < |s.calls| && s.calls[k].pc.FirstInterrupt? && s.calls[k].id == 0
    requires s.l.interrupted || (s.l.ingressFailed && !s.calls[k].restore)
    requires Play(s, more).Some?
    ensures var s' := Play(s, more).value;
      && k < |s'.calls| && s'.calls[k].id == 0
      && (s'.calls[k].pc.FirstInterrupt? || s'.calls[k].pc.FirstIngress? || s'.calls[k].pc.Refused?)
  {
    TooLateForGood(s, k, more);
  }

  lemma {:induction false} TooLateForGood(s: State, k: nat, more: seq<Step>)
    requires s.cap > 0 && k < |s.calls| && TooLate(s.l, s.calls[k]) && Play(s, more).Some?
    ensures var s' := Play(s, more).value; k < |s'.calls| && TooLate(s'.l, s'.calls[k])
    decreases |more|
  {
    if more != [] {
      TooLateForGood(s, k, more[..|more| - 1]);
      TooLateStep(Play(s, more[..|more| - 1]).value, more[|more| - 1], k);
    }
  }
}
