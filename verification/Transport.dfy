/**
 The ACP transport of `acp.rs` as a step relation: one reader thread, one
 writer thread behind a one-slot queue, one consumer, and any number of
 callers in `begin_request`, `notify` or `respond`. Every load, store, queue
 operation and critical section is one step, and any thread may move next.

 `cap` is `EVENTS`: it bounds the pending replies and the event queue, which
 keeps one of its slots for the final fault.
 */
module Transport {
  import opened Wrappers

  // ---- the wire ----

  datatype JsonId = NoId | Num(n: nat) | OtherId

  /** One line of the child's output, as far as routing looks at it. */
  datatype Line = Garbage | Message(name: Option<string>, id: JsonId, failed: bool, body: int)

  datatype Incoming = Notification(name: string) | Request(name: string) | Malformed | Fault

  datatype Answer = Reply(id: nat, ok: bool, body: int) | Failure

  datatype Route = ToConsumer(event: Incoming) | ToCaller(answer: Answer)

  /** `route_message`, and the reader's treatment of a line that is not JSON. */
  function RouteOf(line: Line): Route {
    match line
    case Garbage => ToConsumer(Malformed)
    case Message(Some(name), NoId, _, _) => ToConsumer(Notification(name))
    case Message(Some(name), _, _, _) => ToConsumer(Request(name))
    case Message(None, Num(n), failed, body) => ToCaller(Reply(n, !failed, body))
    case Message(None, _, _, _) => ToConsumer(Malformed)
  }

  /** What a line is to the consumer: a method without an id is a notification, one with any id a request. */
  predicate Arrives(line: Line, event: Incoming) {
    match event
    case Notification(name) => line.Message? && line.name == Some(name) && line.id.NoId?
    case Request(name) => line.Message? && line.name == Some(name) && !line.id.NoId?
    case Malformed => line.Garbage? || (line.name.None? && !line.id.Num?)
    case Fault => false
  }

  /** The events a list of lines routes to the consumer, in order. */
  function EventsOf(log: seq<Line>): seq<Incoming> {
    if log == [] then []
    else
      var last := RouteOf(log[|log| - 1]);
      EventsOf(log[..|log| - 1]) + (if last.ToConsumer? then [last.event] else [])
  }

  // ---- shared state ----

  /** Reply slots. `inHand` are the senders a thread took out of `pending` and has not used yet. */
  datatype Mail = Mail(nextId: nat, pending: set<nat>, inHand: set<nat>, answers: map<nat, Answer>)

  /** The bounded event queue, what the consumer took from it, and the lines handled so far. */
  datatype Events = Events(queue: seq<Incoming>, delivered: seq<Incoming>, log: seq<Line>)

  /** The two latches; whether a drain has run; whether a write failure latched before any interruption. */
  datatype Latches = Latches(interrupted: bool, ingressFailed: bool, drained: bool, writeFaultFirst: bool)

  datatype Completion = Written | Broken

  /** A frame the child was given, with the latches at that moment. */
  datatype Frame = Frame(call: nat, restore: bool, latched: bool, interrupted: bool)

  datatype WriterPc = Receiving | Got(call: nat) | Passed(call: nat) | Writing(call: nat) | Stopped

  datatype Pipe = Pipe(slot: Option<nat>, completions: map<nat, Completion>, written: seq<Frame>, writer: WriterPc)

  datatype ReaderPc =
    | Reading
    | Offering(line: Line)               // the capacity check passed
    | Answering(answer: Answer)          // the sender is out of the map
    | Ending                             // about to read `interrupted`
    | SawInterrupt                       // read it true, about to read the ingress latch
    | Latching(notify: bool)
    | Draining(notify: bool)
    | Failing(notify: bool, left: set<nat>)
    | Publishing(notify: bool)
    | Ended(notify: bool)

  datatype CallPc =
    | FirstInterrupt | FirstIngress      // the check before an id is taken
    | Allocating
    | Reserving
    | SecondInterrupt | SecondIngress    // the check before the frame is queued
    | Enqueuing
    | AwaitingWrite
    | LatchingFailure
    | DrainingReplies
    | FailingReplies(left: set<nat>)
    | CleaningUp
    | Held                               // `begin_request` returned Ok
    | Received
    | Dropped                            // dropped or timed out
    | Sent                               // `notify` or `respond` returned Ok
    | Refused

  /** `request` is false for `notify` and `respond`, which take no id. */
  datatype Call = Call(request: bool, restore: bool, id: nat, pc: CallPc)

  datatype State = State(cap: nat, m: Mail, e: Events, l: Latches, p: Pipe, reader: ReaderPc, calls: seq<Call>)

  // ---- steps ----

  /** What the environment decides for a caller: go on, give up, or which sender to use next. */
  datatype Choice = Go | GiveUp | Break | Pick(id: nat)

  datatype Step =
    | Begin(request: bool, restore: bool)
    | CallStep(k: nat, choice: Choice)
    | ReaderStep(input: Option<Line>, pick: nat)
    | WriterStep(yes: bool)
    | Consume
    | Interrupt

  function Init(cap: nat): State {
    State(cap, Mail(1, {}, {}, map[]), Events([], [], []), Latches(false, false, false, false),
          Pipe(None, map[], [], Receiving), Reading, [])
  }

  datatype CallEffect = CallBlocked | CallEffect(call: Call, m: Mail, l: Latches, p: Pipe)

  /** Where a failed attempt goes: a request still has its slot to remove. */
  function Failed(call: Call): CallPc {
    if call.request then CleaningUp else Refused
  }

  function RemoveOwn(m: Mail, id: nat): Mail {
    m.(pending := m.pending - {id})
  }

  function Answered(m: Mail, id: nat, answer: Answer): Mail {
    m.(inHand := m.inHand - {id}, answers := m.answers[id := answer])
  }

  /** `begin_request_with_budget`, `write_message_with_budget` and `wait_write`. */
  function AdvanceCall(cap: nat, m: Mail, l: Latches, p: Pipe, k: nat, call: Call, choice: Choice): CallEffect {
    match call.pc
    case FirstInterrupt => CallEffect(call.(pc := if l.interrupted then Refused else FirstIngress), m, l, p)
    case FirstIngress => CallEffect(call.(pc := if l.ingressFailed && !call.restore then Refused else Allocating), m,
                                    l, p)
    case Allocating => CallEffect(call.(id := m.nextId, pc := Reserving), m.(nextId := m.nextId + 1), l, p)
    case Reserving =>
      if |m.pending| >= cap then CallEffect(call.(pc := Refused), m, l, p)
      else CallEffect(call.(pc := SecondInterrupt), m.(pending := m.pending + {call.id}), l, p)
    case SecondInterrupt => CallEffect(call.(pc := if l.interrupted then Failed(call) else SecondIngress), m, l, p)
    case SecondIngress =>
      CallEffect(call.(pc := if l.ingressFailed && !call.restore then Failed(call) else Enqueuing), m, l, p)
    case Enqueuing =>
      if p.slot.Some? || p.writer.Stopped? then CallEffect(call.(pc := LatchingFailure), m, l, p)
      else CallEffect(call.(pc := AwaitingWrite), m, l, p.(slot := Some(k)))
    case AwaitingWrite => AdvanceWait(m, l, p, k, call, choice)
    case _ => AdvanceFailure(m, l, p, call, choice)
  }

  /** One turn of the `wait_write` loop. */
  function AdvanceWait(m: Mail, l: Latches, p: Pipe, k: nat, call: Call, choice: Choice): CallEffect {
    match choice
    case Go =>
      if k in p.completions && p.completions[k].Written?
          then CallEffect(call.(pc := if call.request then Held else Sent), m, l, p)
      else CallBlocked
    case GiveUp =>
      if l.interrupted || (l.ingressFailed && !call.restore) then CallEffect(call.(pc := Failed(call)), m, l, p)
      else CallBlocked
    case Break => CallEffect(call.(pc := LatchingFailure), m, l, p)      // timed out, or the writer closed it
    case Pick(_) => CallBlocked
  }

  /** `write_failed`, the cleanup of a failed request, and the life of an accepted one. */
  function AdvanceFailure(m: Mail, l: Latches, p: Pipe, call: Call, choice: Choice): CallEffect {
    match call.pc
    case LatchingFailure =>
      CallEffect(call.(pc := DrainingReplies), m,
                 l.(ingressFailed := true, writeFaultFirst := l.writeFaultFirst || !l.interrupted), p)
    case DrainingReplies =>
      CallEffect(call.(pc := FailingReplies(m.pending)), m.(pending := {}, inHand := m.inHand + m.pending),
                 l.(drained := true), p)
    case FailingReplies(left) =>
      if left == {} then CallEffect(call.(pc := Failed(call)), m, l, p)
      else if choice.Pick? && choice.id in left && choice.id !in m.answers then
        CallEffect(call.(pc := FailingReplies(left - {choice.id})), Answered(m, choice.id, Failure), l, p)
      else CallBlocked
    case CleaningUp => CallEffect(call.(pc := Refused), RemoveOwn(m, call.id), l, p)
    case Held =>
      if choice.Go? then
        if call.id in m.answers then CallEffect(call.(pc := Received), RemoveOwn(m, call.id), l, p) else CallBlocked
      else CallEffect(call.(pc := Dropped), RemoveOwn(m, call.id), l, p)
    case _ => CallBlocked
  }

  datatype ReaderEffect = ReaderBlocked | ReaderEffect(reader: ReaderPc, m: Mail, e: Events, l: Latches)

  /** The reader loop: one line, or the end of the stream. */
  function AdvanceReading(cap: nat, m: Mail, e: Events, l: Latches, input: Option<Line>): ReaderEffect
    requires cap > 0
  {
    match input
    case None => ReaderEffect(Ending, m, e, l)
    case Some(line) =>
      match RouteOf(line)
      case ToConsumer(_) => ReaderEffect(if |e.queue| >= cap - 1 then Ending else Offering(line), m, e, l)
      case ToCaller(answer) =>
        if answer.id in m.pending then
          ReaderEffect(Answering(answer), m.(pending := m.pending - {answer.id}, inHand := m.inHand + {answer.id}),
                       e.(log := e.log + [line]), l)
        else ReaderEffect(Reading, m, e.(log := e.log + [line]), l)
  }

  function AdvanceReader(cap: nat, m: Mail, e: Events, l: Latches, reader: ReaderPc, input: Option<Line>,
                         pick: nat): ReaderEffect
    requires cap > 0
  {
    match reader
    case Reading => AdvanceReading(cap, m, e, l, input)
    case Offering(line) =>
      if |e.queue| < cap && RouteOf(line).ToConsumer? then
        ReaderEffect(Reading, m, e.(queue := e.queue + [RouteOf(line).event], log := e.log + [line]), l)
      else ReaderEffect(Ending, m, e, l)
    case Answering(answer) =>
      if answer.Reply? && answer.id !in m.answers then ReaderEffect(Reading, Answered(m, answer.id, answer), e, l)
      else ReaderBlocked
    case Ending => ReaderEffect(if l.interrupted then SawInterrupt else Latching(true), m, e, l)
    case SawInterrupt => ReaderEffect(Latching(l.ingressFailed), m, e, l)
    case Latching(notify) => ReaderEffect(Draining(notify), m, e, l.(ingressFailed := true))
    case Draining(notify) =>
      ReaderEffect(Failing(notify, m.pending), m.(pending := {}, inHand := m.inHand + m.pending), e,
                   l.(drained := true))
    case Failing(notify, left) =>
      if left == {} then ReaderEffect(Publishing(notify), m, e, l)
      else if pick in left && pick !in m.answers then
        ReaderEffect(Failing(notify, left - {pick}), Answered(m, pick, Failure), e, l)
      else ReaderBlocked
    case Publishing(notify) =>
      ReaderEffect(Ended(notify), m, if notify && |e.queue| < cap then e.(queue := e.queue + [Fault]) else e, l)
    case Ended(_) => ReaderBlocked
  }

  /** The writer leaves its loop: the frame in its hand and the one still queued are dropped. */
  function StopWriter(p: Pipe, call: nat): Pipe {
    var broken := p.completions[call := Broken];
    p.(slot := None, completions := if p.slot.Some? then broken[p.slot.value := Broken] else broken, writer := Stopped)
  }

  datatype PipeEffect = PipeBlocked | PipeEffect(p: Pipe)

  /** `write_frames`; `restore` tells whether the frame in the writer's hand is a restore or a cancel. */
  function AdvanceWriter(p: Pipe, l: Latches, restore: bool, yes: bool): PipeEffect {
    match p.writer
    case Receiving => if p.slot.None? then PipeBlocked else PipeEffect(p.(slot := None, writer := Got(p.slot.value)))
    case Got(call) => if l.interrupted then PipeEffect(StopWriter(p, call)) else PipeEffect(p.(writer := Passed(call)))
    case Passed(call) =>
      if l.ingressFailed && !restore then
        PipeEffect(p.(completions := p.completions[call := Broken], writer := Receiving))
      else PipeEffect(p.(writer := Writing(call)))
    case Writing(call) =>
      if yes then
        PipeEffect(p.(completions := p.completions[call := Written], writer := Receiving,
                      written := p.written + [Frame(call, restore, l.ingressFailed, l.interrupted)]))
      else PipeEffect(StopWriter(p, call))
    case Stopped => PipeBlocked
  }

  function InHandOf(p: Pipe): Option<nat> {
    match p.writer
    case Got(call) => Some(call)
    case Passed(call) => Some(call)
    case Writing(call) => Some(call)
    case _ => None
  }

  predicate RestoreInHand(s: State) {
    var c := InHandOf(s.p);
    c.Some? && c.value < |s.calls| && s.calls[c.value].restore
  }

  /** The state after `step`, or `None` where the step cannot be taken. */
  function Do(s: State, step: Step): Option<State>
    requires s.cap > 0
  {
    match step
    case Begin(request, restore) =>
      Some(s.(calls := s.calls + [Call(request, restore, 0, if request then FirstInterrupt else SecondInterrupt)]))
    case CallStep(k, choice) =>
      if k >= |s.calls| then None
      else
        var r := AdvanceCall(s.cap, s.m, s.l, s.p, k, s.calls[k], choice);
        if r.CallBlocked? then None else Some(s.(m := r.m, l := r.l, p := r.p, calls := s.calls[k := r.call]))
    case ReaderStep(input, pick) =>
      var r := AdvanceReader(s.cap, s.m, s.e, s.l, s.reader, input, pick);
      if r.ReaderBlocked? then None else Some(s.(m := r.m, e := r.e, l := r.l, reader := r.reader))
    case WriterStep(yes) =>
      var r := AdvanceWriter(s.p, s.l, RestoreInHand(s), yes);
      if r.PipeBlocked? then None else Some(s.(p := r.p))
    case Consume =>
      if s.e.queue == [] then None
      else Some(s.(e := s.e.(queue := s.e.queue[1..], delivered := s.e.delivered + [s.e.queue[0]])))
    case Interrupt => Some(s.(l := s.l.(interrupted := true)))
  }

  /** The state a list of steps leads to, or `None` if one of them cannot be taken. */
  function Play(s: State, steps: seq<Step>): (r: Option<State>)
    requires s.cap > 0
    ensures r.Some? ==> r.value.cap == s.cap
    decreases |steps|
  {
    if steps == [] then Some(s)
    else
      var p := Play(s, steps[..|steps| - 1]);
      if p.None? then None else Do(p.value, steps[|steps| - 1])
  }
}
