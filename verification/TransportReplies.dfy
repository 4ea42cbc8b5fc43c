/**
 Reply slots over every interleaving: each request owns one id, its sender is
 always in exactly one place, it is answered at most once, and no ordinary
 request is left waiting once a latched transport has been drained.
 */
module TransportReplies {
  import opened Wrappers
  import opened Transport
  import TransportFlow

  // ---- what a step may do to the reply slots ----

  datatype Act =
    | Leave
    | Number
    | Reserve(id: nat)
    | TakeOne(id: nat)
    | TakeAll
    | Deliver(id: nat, answer: Answer)
    | Remove(id: nat)

  function Apply(m: Mail, act: Act): Mail {
    match act
    case Leave => m
    case Number => m.(nextId := m.nextId + 1)
    case Reserve(id) => m.(pending := m.pending + {id})
    case TakeOne(id) => m.(pending := m.pending - {id}, inHand := m.inHand + {id})
    case TakeAll => m.(pending := {}, inHand := m.inHand + m.pending)
    case Deliver(id, answer) => Answered(m, id, answer)
    case Remove(id) => RemoveOwn(m, id)
  }

  function ActOfCall(cap: nat, m: Mail, call: Call, choice: Choice): Act {
    match call.pc
    case Allocating => Number
    case Reserving => if |m.pending| >= cap then Leave else Reserve(call.id)
    case DrainingReplies => TakeAll
    case FailingReplies(left) => if left == {} || !choice.Pick? then Leave else Deliver(choice.id, Failure)
    case CleaningUp => Remove(call.id)
    case Held => Remove(call.id)
    case _ => Leave
  }

  function ActOfReader(m: Mail, reader: ReaderPc, input: Option<Line>, pick: nat): Act {
    match reader
    case Reading =>
      if input.Some? && RouteOf(input.value).ToCaller? && RouteOf(input.value).answer.id in m.pending
      then TakeOne(RouteOf(input.value).answer.id) else Leave
    case Answering(answer) => if answer.Reply? then Deliver(answer.id, answer) else Leave
    case Draining(_) => TakeAll
    case Failing(_, left) => if left == {} then Leave else Deliver(pick, Failure)
    case _ => Leave
  }

  lemma {:induction false} CallActs(cap: nat, m: Mail, l: Latches, p: Pipe, k: nat, call: Call, choice: Choice)
    requires AdvanceCall(cap, m, l, p, k, call, choice).CallEffect?
    ensures AdvanceCall(cap, m, l, p, k, call, choice).m == Apply(m, ActOfCall(cap, m, call, choice))
  {
    match call.pc
    case AwaitingWrite =>
    case FirstInterrupt | FirstIngress | Allocating | Reserving | SecondInterrupt | SecondIngress | Enqueuing =>
    case _ => FailureActs(cap, m, l, p, call, choice);
  }

  lemma {:induction false} FailureActs(cap: nat, m: Mail, l: Latches, p: Pipe, call: Call, choice: Choice)
    requires AdvanceFailure(m, l, p, call, choice).CallEffect?
    ensures AdvanceFailure(m, l, p, call, choice).m == Apply(m, ActOfCall(cap, m, call, choice))
  {
  }

  lemma {:induction false} ReaderActs(cap: nat, m: Mail, e: Events, l: Latches, reader: ReaderPc,
                                      input: Option<Line>, pick: nat)
    requires cap > 0 && AdvanceReader(cap, m, e, l, reader, input, pick).ReaderEffect?
    ensures AdvanceReader(cap, m, e, l, reader, input, pick).m == Apply(m, ActOfReader(m, reader, input, pick))
  {
  }

  // ---- invariants ----

  predicate Unnumbered(pc: CallPc) {
    pc.FirstInterrupt? || pc.FirstIngress? || pc.Allocating?
  }

  /** The second check passed: the request may still be answered or accepted. */
  predicate PastCheck(pc: CallPc) {
    pc.Enqueuing? || pc.AwaitingWrite? || pc.LatchingFailure? || pc.DrainingReplies? || pc.FailingReplies? || pc.Held?
  }

  /** The request has a slot that it has not given up itself. */
  predicate Reserved(pc: CallPc) {
    PastCheck(pc) || pc.SecondInterrupt? || pc.SecondIngress? || pc.CleaningUp?
  }

  function HandOf(call: Call): set<nat> {
    if call.pc.FailingReplies? then call.pc.left else {}
  }

  function Hand(reader: ReaderPc): set<nat> {
    match reader
    case Answering(answer) => if answer.Reply? then {answer.id} else {}
    case Failing(_, left) => left
    case _ => {}
  }

  /** The senders the acting thread is left with. */
  function HandAfter(hand: set<nat>, m: Mail, act: Act): set<nat> {
    match act
    case TakeOne(id) => hand + {id}
    case TakeAll => hand + m.pending
    case Deliver(id, _) => hand - {id}
    case _ => hand
  }

  /** The sender of `id` is in the map, in a thread's hand, or used. */
  predicate Somewhere(m: Mail, id: nat) {
    id in m.pending || id in m.inHand || id in m.answers
  }

  ghost predicate SlotsOk(cap: nat, m: Mail) {
    && |m.pending| <= cap
    && m.pending !! m.inHand && m.pending !! m.answers.Keys && m.inHand !! m.answers.Keys
    && (forall id: nat :: Somewhere(m, id) ==> 0 < id < m.nextId)
    && 0 < m.nextId
  }

  predicate OwnCall(m: Mail, l: Latches, call: Call) {
    && call.id < m.nextId
    && (!call.request || Unnumbered(call.pc) ==> call.id == 0)
    && (Unnumbered(call.pc) || call.pc.Reserving? || call.pc.Held? || call.pc.CleaningUp? ==> call.request)
    && (call.request && (call.pc.Reserving? || Reserved(call.pc)) ==> call.id > 0)
    && (call.pc.Reserving? ==> !Somewhere(m, call.id))
    && (call.request && Reserved(call.pc) ==> Somewhere(m, call.id))
    && HandOf(call) <= m.inHand
    && (call.pc.DrainingReplies? || call.pc.FailingReplies? ==> l.ingressFailed)
    && (l.drained && call.request && !call.restore && PastCheck(call.pc) ==> call.id !in m.pending)
  }

  predicate OwnReader(m: Mail, l: Latches, reader: ReaderPc) {
    && Hand(reader) <= m.inHand
    && (reader.Draining? || reader.Failing? ==> l.ingressFailed)
    && (l.drained ==> l.ingressFailed)
  }

  /** Two parties never share an id or a sender. */
  predicate Apart(a: Call, b: Call) {
    (a.id == b.id ==> a.id == 0) && HandOf(a) !! HandOf(b)
  }

  /** The step is legal for the slots. */
  predicate Legal(cap: nat, m: Mail, act: Act) {
    match act
    case Reserve(id) => !Somewhere(m, id) && 0 < id < m.nextId && |m.pending| < cap
    case TakeOne(id) => id in m.pending
    case Deliver(id, _) => id in m.inHand
    case _ => true
  }

  /** The step leaves this call alone. */
  predicate Spares(act: Act, call: Call) {
    match act
    case Reserve(id) => id != call.id
    case Deliver(id, _) => id !in HandOf(call)
    case Remove(id) => id != call.id
    case _ => true
  }

  predicate LatchStep(l: Latches, l': Latches, act: Act) {
    TransportFlow.LatchesGrow(l, l') && (l'.drained ==> l.drained || act.TakeAll?)
  }

  lemma {:induction false} SlotsKept(cap: nat, m: Mail, act: Act)
    requires SlotsOk(cap, m) && Legal(cap, m, act)
    ensures SlotsOk(cap, Apply(m, act))
  {
    match act
    case Leave =>
    case Number => assert forall id: nat :: Somewhere(Apply(m, act), id) ==> Somewhere(m, id);
    case Reserve(id) =>
      assert |m.pending + {id}| == |m.pending| + 1;
      assert forall j: nat :: Somewhere(Apply(m, act), j) ==> Somewhere(m, j) || j == id;
    case TakeOne(id) =>
      SubsetCard(m.pending - {id}, m.pending);
      assert forall j: nat :: Somewhere(Apply(m, act), j) ==> Somewhere(m, j);
    case TakeAll => assert forall j: nat :: Somewhere(Apply(m, act), j) ==> Somewhere(m, j);
    case Deliver(id, _) => assert forall j: nat :: Somewhere(Apply(m, act), j) ==> Somewhere(m, j);
    case Remove(id) =>
      SubsetCard(m.pending - {id}, m.pending);
      assert forall j: nat :: Somewhere(Apply(m, act), j) ==> Somewhere(m, j);
  }

  lemma {:induction false} SubsetCard(a: set<nat>, b: set<nat>)
    requires a <= b
    ensures |a| <= |b|
  {
    assert b == a + (b - a);
    assert |b| == |a| + |b - a|;
  }

  lemma {:induction false} PeerKept(cap: nat, m: Mail, l: Latches, l': Latches, act: Act, call: Call)
    requires OwnCall(m, l, call) && Legal(cap, m, act) && Spares(act, call) && LatchStep(l, l', act)
    ensures OwnCall(Apply(m, act), l', call)
  {
  }

  /** What the step of one call keeps for itself and promises the others. */
  ghost predicate CallKeeps(cap: nat, m: Mail, l: Latches, call: Call, choice: Choice, r: CallEffect)
    requires r.CallEffect?
  {
    && OwnCall(r.m, r.l, r.call)
    && r.call.request == call.request && r.call.restore == call.restore
    && (r.call.id == call.id || (r.call.id == m.nextId && call.pc.Allocating?))
    && HandOf(r.call) == HandAfter(HandOf(call), m, ActOfCall(cap, m, call, choice))
    && LatchStep(l, r.l, ActOfCall(cap, m, call, choice))
    && Legal(cap, m, ActOfCall(cap, m, call, choice))
    && (ActOfCall(cap, m, call, choice).Deliver? ==> ActOfCall(cap, m, call, choice).id in HandOf(call))
  }

  lemma {:induction false} WaitKept(cap: nat, m: Mail, l: Latches, p: Pipe, k: nat, call: Call, choice: Choice)
    requires OwnCall(m, l, call) && call.pc.AwaitingWrite?
    requires AdvanceWait(m, l, p, k, call, choice).CallEffect?
    ensures CallKeeps(cap, m, l, call, choice, AdvanceWait(m, l, p, k, call, choice))
  {
  }

  lemma {:induction false} FailingKept(cap: nat, m: Mail, l: Latches, p: Pipe, call: Call, choice: Choice)
    requires OwnCall(m, l, call) && call.pc.FailingReplies?
    requires AdvanceFailure(m, l, p, call, choice).CallEffect?
    ensures CallKeeps(cap, m, l, call, choice, AdvanceFailure(m, l, p, call, choice))
  {
    var left := call.pc.left;
    if left != {} {
      assert left - {choice.id} <= m.inHand - {choice.id};
    }
  }

  lemma {:induction false} FailureKept(cap: nat, m: Mail, l: Latches, p: Pipe, call: Call, choice: Choice)
    requires OwnCall(m, l, call) && (call.pc.LatchingFailure? || call.pc.DrainingReplies?)
    requires AdvanceFailure(m, l, p, call, choice).CallEffect?
    ensures CallKeeps(cap, m, l, call, choice, AdvanceFailure(m, l, p, call, choice))
  {
  }

  lemma {:induction false} SettlingKept(cap: nat, m: Mail, l: Latches, p: Pipe, call: Call, choice: Choice)
    requires OwnCall(m, l, call) && (call.pc.CleaningUp? || call.pc.Held?)
    requires AdvanceFailure(m, l, p, call, choice).CallEffect?
    ensures CallKeeps(cap, m, l, call, choice, AdvanceFailure(m, l, p, call, choice))
  {
  }

  lemma {:induction false} OpeningKept(cap: nat, m: Mail, l: Latches, p: Pipe, k: nat, call: Call, choice: Choice)
    requires !Somewhere(m, m.nextId) && OwnCall(m, l, call) && Unnumbered(call.pc)
    ensures var r := AdvanceCall(cap, m, l, p, k, call, choice); r.CallEffect? && CallKeeps(cap, m, l, call, choice, r)
  {
  }

  lemma {:induction false} ReservingKept(cap: nat, m: Mail, l: Latches, p: Pipe, k: nat, call: Call, choice: Choice)
    requires OwnCall(m, l, call) && call.pc.Reserving?
    ensures var r := AdvanceCall(cap, m, l, p, k, call, choice); r.CallEffect? && CallKeeps(cap, m, l, call, choice, r)
  {
    var r := AdvanceCall(cap, m, l, p, k, call, choice);
    assert r.call.pc.Refused? || (call.id in r.m.pending && !PastCheck(r.call.pc));
  }

  lemma {:induction false} CheckKept(cap: nat, m: Mail, l: Latches, p: Pipe, k: nat, call: Call, choice: Choice)
    requires OwnCall(m, l, call) && (l.drained ==> l.ingressFailed)
    requires call.pc.SecondInterrupt? || call.pc.SecondIngress? || call.pc.Enqueuing?
    ensures var r := AdvanceCall(cap, m, l, p, k, call, choice); r.CallEffect? && CallKeeps(cap, m, l, call, choice, r)
  {
  }

  lemma {:induction false} CallKept(cap: nat, m: Mail, l: Latches, p: Pipe, k: nat, call: Call, choice: Choice)
    requires !Somewhere(m, m.nextId) && OwnCall(m, l, call) && (l.drained ==> l.ingressFailed)
    requires AdvanceCall(cap, m, l, p, k, call, choice).CallEffect?
    ensures CallKeeps(cap, m, l, call, choice, AdvanceCall(cap, m, l, p, k, call, choice))
  {
    var pc := call.pc;
    if Unnumbered(pc) {
      OpeningKept(cap, m, l, p, k, call, choice);
    } else if pc.Reserving? {
      ReservingKept(cap, m, l, p, k, call, choice);
    } else if pc.SecondInterrupt? || pc.SecondIngress? || pc.Enqueuing? {
      CheckKept(cap, m, l, p, k, call, choice);
    } else if pc.AwaitingWrite? {
      WaitKept(cap, m, l, p, k, call, choice);
    } else if pc.FailingReplies? {
      FailingKept(cap, m, l, p, call, choice);
    } else if pc.CleaningUp? || pc.Held? {
      SettlingKept(cap, m, l, p, call, choice);
    } else {
      FailureKept(cap, m, l, p, call, choice);
    }
  }

  lemma {:induction false} ReaderKept(cap: nat, m: Mail, e: Events, l: Latches, reader: ReaderPc,
                                      input: Option<Line>, pick: nat)
    requires cap > 0 && OwnReader(m, l, reader)
    requires AdvanceReader(cap, m, e, l, reader, input, pick).ReaderEffect?
    ensures var r, act := AdvanceReader(cap, m, e, l, reader, input, pick), ActOfReader(m, reader, input, pick);
      && OwnReader(r.m, r.l, r.reader)
      && Hand(r.reader) == HandAfter(Hand(reader), m, act)
      && LatchStep(l, r.l, act) && Legal(cap, m, act)
      && (act.Deliver? ==> act.id in Hand(reader)) && !act.Reserve? && !act.Remove? && !act.Number?
  {
  }

  /** The answer was read off the wire: some line without a method carries its id, its body, and an error or not. */
  predicate Wired(log: seq<Line>, answer: Answer)
    requires answer.Reply?
  {
    exists i :: 0 <= i < |log| && log[i] == Message(None, Num(answer.id), !answer.ok, answer.body)
  }

  /** An answer is the reply that carried its id, or a failure after the latch. */
  predicate Genuine(log: seq<Line>, l: Latches, id: nat, answer: Answer) {
    if answer.Reply? then answer.id == id && Wired(log, answer) else l.ingressFailed
  }

  predicate HasHolder(s: State, id: nat) {
    id in Hand(s.reader) || exists k :: 0 <= k < |s.calls| && id in HandOf(s.calls[k])
  }

  ghost predicate Posted(s: State) {
    && s.cap > 0 && SlotsOk(s.cap, s.m) && OwnReader(s.m, s.l, s.reader)
    && (forall k :: 0 <= k < |s.calls| ==> OwnCall(s.m, s.l, s.calls[k]) && HandOf(s.calls[k]) !! Hand(s.reader))
    && (forall j, k :: 0 <= j < k < |s.calls| ==> Apart(s.calls[j], s.calls[k]))
    && (forall id: nat :: id in s.m.inHand ==> HasHolder(s, id))
    && (s.reader.Answering? ==> s.reader.answer.Reply? && Wired(s.e.log, s.reader.answer))
    && (forall id: nat :: id in s.m.answers ==> Genuine(s.e.log, s.l, id, s.m.answers[id]))
  }

  lemma {:induction false} GenuineGrows(log: seq<Line>, log': seq<Line>, l: Latches, l': Latches, id: nat,
                                        answer: Answer)
    requires Genuine(log, l, id, answer) && log <= log' && (l.ingressFailed ==> l'.ingressFailed)
    ensures Genuine(log', l', id, answer)
  {
    if answer.Reply? {
      var i :| 0 <= i < |log| && log[i] == Message(None, Num(answer.id), !answer.ok, answer.body);
      assert log'[i] == log[i];
    }
  }

  /** The other calls of a stepping call keep their accounts. */
  lemma {:induction false} PeersOfCall(s: State, k: nat, choice: Choice)
    requires Posted(s) && Do(s, CallStep(k, choice)).Some?
    ensures var s' := Do(s, CallStep(k, choice)).value;
      && SlotsOk(s'.cap, s'.m) && OwnReader(s'.m, s'.l, s'.reader)
      && (forall j :: 0 <= j < |s'.calls| ==>
            OwnCall(s'.m, s'.l, s'.calls[j]) && HandOf(s'.calls[j]) !! Hand(s'.reader))
  {
    var call, act := s.calls[k], ActOfCall(s.cap, s.m, s.calls[k], choice);
    var r := AdvanceCall(s.cap, s.m, s.l, s.p, k, call, choice);
    assert OwnCall(s.m, s.l, call) && HandOf(call) !! Hand(s.reader);
    CallActs(s.cap, s.m, s.l, s.p, k, call, choice);
    CallKept(s.cap, s.m, s.l, s.p, k, call, choice);
    SlotsKept(s.cap, s.m, act);
    var s' := Do(s, CallStep(k, choice)).value;
    forall j | 0 <= j < |s.calls| && j != k
        ensures OwnCall(s'.m, s'.l, s'.calls[j]) && HandOf(s'.calls[j]) !! Hand(s'.reader) {
      assert OwnCall(s.m, s.l, s.calls[j]) && (Apart(s.calls[j], call) || Apart(call, s.calls[j]));
      PeerSpared(s.cap, s.m, s.l, call, choice, s.calls[j]);
      PeerKept(s.cap, s.m, s.l, r.l, act, s.calls[j]);
    }
  }

  /** A call's step touches neither the slot nor the senders of a call apart from it. */
  lemma {:induction false} PeerSpared(cap: nat, m: Mail, l: Latches, call: Call, choice: Choice, peer: Call)
    requires OwnCall(m, l, call) && OwnCall(m, l, peer) && (Apart(call, peer) || Apart(peer, call))
    requires ActOfCall(cap, m, call, choice).Deliver? ==> ActOfCall(cap, m, call, choice).id in HandOf(call)
    ensures Spares(ActOfCall(cap, m, call, choice), peer)
  {
  }

  lemma {:induction false} ApartAfterCall(s: State, k: nat, choice: Choice)
    requires Posted(s) && Do(s, CallStep(k, choice)).Some?
    ensures var s' := Do(s, CallStep(k, choice)).value;
      forall i, j :: 0 <= i < j < |s'.calls| ==> Apart(s'.calls[i], s'.calls[j])
  {
    var call, act := s.calls[k], ActOfCall(s.cap, s.m, s.calls[k], choice);
    CallKept(s.cap, s.m, s.l, s.p, k, call, choice);
    var s' := Do(s, CallStep(k, choice)).value;
    forall j | 0 <= j < |s.calls| && j != k ensures Apart(s'.calls[k], s.calls[j]) && Apart(s.calls[j], s'.calls[k]) {
      assert OwnCall(s.m, s.l, s.calls[j]) && (Apart(s.calls[j], call) || Apart(call, s.calls[j]));
    }
  }

  lemma {:induction false} HoldersAfterCall(s: State, k: nat, choice: Choice)
    requires Posted(s) && Do(s, CallStep(k, choice)).Some?
    ensures var s' := Do(s, CallStep(k, choice)).value;
      && (forall id: nat :: id in s'.m.inHand ==> HasHolder(s', id))
      && (forall id: nat :: id in s'.m.answers ==> Genuine(s'.e.log, s'.l, id, s'.m.answers[id]))
  {
    var call, act := s.calls[k], ActOfCall(s.cap, s.m, s.calls[k], choice);
    CallActs(s.cap, s.m, s.l, s.p, k, call, choice);
    CallKept(s.cap, s.m, s.l, s.p, k, call, choice);
    var s' := Do(s, CallStep(k, choice)).value;
    forall id: nat | id in s'.m.inHand ensures HasHolder(s', id) {
      if id in s.m.inHand && id !in Hand(s.reader) {
        var j :| 0 <= j < |s.calls| && id in HandOf(s.calls[j]);
        assert id in HandOf(s'.calls[j]);
      } else if id !in s.m.inHand {
        assert id in HandOf(s'.calls[k]);
      }
    }
    forall id: nat | id in s'.m.answers ensures Genuine(s'.e.log, s'.l, id, s'.m.answers[id]) {
      if id in s.m.answers && s'.m.answers[id] == s.m.answers[id] {
        GenuineGrows(s.e.log, s'.e.log, s.l, s'.l, id, s.m.answers[id]);
      }
    }
  }

  lemma {:induction false} PostedCall(s: State, k: nat, choice: Choice)
    requires Posted(s) && Do(s, CallStep(k, choice)).Some?
    ensures Posted(Do(s, CallStep(k, choice)).value)
  {
    PeersOfCall(s, k, choice);
    ApartAfterCall(s, k, choice);
    HoldersAfterCall(s, k, choice);
  }

  lemma {:induction false} PeersOfReader(s: State, input: Option<Line>, pick: nat)
    requires Posted(s) && Do(s, ReaderStep(input, pick)).Some?
    ensures var s' := Do(s, ReaderStep(input, pick)).value;
      && SlotsOk(s'.cap, s'.m) && OwnReader(s'.m, s'.l, s'.reader)
      && (forall k :: 0 <= k < |s'.calls| ==>
            OwnCall(s'.m, s'.l, s'.calls[k]) && HandOf(s'.calls[k]) !! Hand(s'.reader))
      && (forall id: nat :: id in s'.m.inHand ==> HasHolder(s', id))
  {
    var r := AdvanceReader(s.cap, s.m, s.e, s.l, s.reader, input, pick);
    var act := ActOfReader(s.m, s.reader, input, pick);
    ReaderActs(s.cap, s.m, s.e, s.l, s.reader, input, pick);
    ReaderKept(s.cap, s.m, s.e, s.l, s.reader, input, pick);
    SlotsKept(s.cap, s.m, act);
    var s' := Do(s, ReaderStep(input, pick)).value;
    forall k | 0 <= k < |s.calls| ensures OwnCall(s'.m, s'.l, s.calls[k]) && HandOf(s.calls[k]) !! Hand(s'.reader) {
      assert OwnCall(s.m, s.l, s.calls[k]) && HandOf(s.calls[k]) !! Hand(s.reader);
      PeerKept(s.cap, s.m, s.l, r.l, act, s.calls[k]);
    }
    forall id: nat | id in s'.m.inHand ensures HasHolder(s', id) {
      if id in s.m.inHand && id !in Hand(s.reader) {
        var j :| 0 <= j < |s.calls| && id in HandOf(s.calls[j]);
        assert id in HandOf(s'.calls[j]);
      }
    }
  }

  /** Where a new answer comes from, and that nothing read is forgotten. */
  lemma {:induction false} ReaderAnswers(cap: nat, m: Mail, e: Events, l: Latches, reader: ReaderPc,
                                         input: Option<Line>, pick: nat, id: nat)
    requires cap > 0 && OwnReader(m, l, reader)
    requires AdvanceReader(cap, m, e, l, reader, input, pick).ReaderEffect?
    ensures var r := AdvanceReader(cap, m, e, l, reader, input, pick);
      && e.log <= r.e.log && (l.ingressFailed ==> r.l.ingressFailed)
      && (r.reader.Answering? && !reader.Answering? ==>
            && r.reader.answer.Reply? && |r.e.log| > 0
            && var a := r.reader.answer; r.e.log[|r.e.log| - 1] == Message(None, Num(a.id), !a.ok, a.body))
      && (r.reader.Answering? ==> !reader.Answering?)
      && (id in r.m.answers ==>
            || (id in m.answers && r.m.answers[id] == m.answers[id])
            || (reader.Answering? && reader.answer.Reply? && id == reader.answer.id && r.m.answers[id] == reader.answer)
            || (r.m.answers[id].Failure? && l.ingressFailed))
  {
  }

  lemma {:induction false} AnswersOfReader(s: State, input: Option<Line>, pick: nat)
    requires Posted(s) && Do(s, ReaderStep(input, pick)).Some?
    ensures var s' := Do(s, ReaderStep(input, pick)).value;
      && (s'.reader.Answering? ==> s'.reader.answer.Reply? && Wired(s'.e.log, s'.reader.answer))
      && (forall id: nat :: id in s'.m.answers ==> Genuine(s'.e.log, s'.l, id, s'.m.answers[id]))
  {
    var s' := Do(s, ReaderStep(input, pick)).value;
    ReaderAnswers(s.cap, s.m, s.e, s.l, s.reader, input, pick, 0);
    forall id: nat | id in s'.m.answers ensures Genuine(s'.e.log, s'.l, id, s'.m.answers[id]) {
      ReaderAnswers(s.cap, s.m, s.e, s.l, s.reader, input, pick, id);
      if id in s.m.answers && s'.m.answers[id] == s.m.answers[id] {
        GenuineGrows(s.e.log, s'.e.log, s.l, s'.l, id, s.m.answers[id]);
      } else if s'.m.answers[id].Reply? {
        GenuineGrows(s.e.log, s'.e.log, s.l, s'.l, id, s.reader.answer);
      }
    }
  }

  lemma {:induction false} PostedReader(s: State, input: Option<Line>, pick: nat)
    requires Posted(s) && Do(s, ReaderStep(input, pick)).Some?
    ensures Posted(Do(s, ReaderStep(input, pick)).value)
  {
    PeersOfReader(s, input, pick);
    AnswersOfReader(s, input, pick);
  }

  /** Steps that touch no slot. */
  lemma {:induction false} PostedRest(s: State, step: Step)
    requires Posted(s) && Do(s, step).Some? && !step.CallStep? && !step.ReaderStep?
    ensures Posted(Do(s, step).value)
  {
    var s' := Do(s, step).value;
    forall k | 0 <= k < |s'.calls| ensures OwnCall(s'.m, s'.l, s'.calls[k]) && HandOf(s'.calls[k]) !! Hand(s'.reader) {
      if k < |s.calls| {
        assert OwnCall(s.m, s.l, s.calls[k]) && s'.calls[k] == s.calls[k];
      }
    }
    forall j, k | 0 <= j < k < |s'.calls| ensures Apart(s'.calls[j], s'.calls[k]) {
      if k < |s.calls| {
        assert Apart(s.calls[j], s.calls[k]);
      }
    }
    forall id: nat | id in s'.m.inHand ensures HasHolder(s', id) {
      assert HasHolder(s, id);
      if id !in Hand(s.reader) {
        var j :| 0 <= j < |s.calls| && id in HandOf(s.calls[j]);
        assert id in HandOf(s'.calls[j]);
      }
    }
    forall id: nat | id in s'.m.answers ensures Genuine(s'.e.log, s'.l, id, s'.m.answers[id]) {
      GenuineGrows(s.e.log, s'.e.log, s.l, s'.l, id, s.m.answers[id]);
    }
  }

  lemma {:induction false} PostedPlay(cap: nat, steps: seq<Step>)
    requires cap > 0 && Play(Init(cap), steps).Some?
    ensures Posted(Play(Init(cap), steps).value)
    decreases |steps|
  {
    if steps != [] {
      var before, step := steps[..|steps| - 1], steps[|steps| - 1];
      PostedPlay(cap, before);
      var s := Play(Init(cap), before).value;
      match step
      case CallStep(k, choice) => PostedCall(s, k, choice);
      case ReaderStep(input, pick) => PostedReader(s, input, pick);
      case _ => PostedRest(s, step);
    }
  }

  // ---- theorems ----

  /** No thread is between taking a sender and using it. */
  predicate NobodySending(s: State) {
    Hand(s.reader) == {} && forall k :: 0 <= k < |s.calls| ==> HandOf(s.calls[k]) == {}
  }

  /**
   No stranded waiter: once a drain has followed the latch, every ordinary
   request that `begin_request` accepted and that is still waited for has its
   answer, or the sender is in the hand of a thread about to use it. It is
   never left in the map.
   */
  lemma {:induction false} NoStrandedWaiter(cap: nat, steps: seq<Step>, k: nat)
    requires cap >= 2 && Play(Init(cap), steps).Some?
    requires var s := Play(Init(cap), steps).value;
      s.l.drained && k < |s.calls| && s.calls[k].pc.Held? && !s.calls[k].restore
    ensures var s := Play(Init(cap), steps).value; var id := s.calls[k].id;
      && s.l.ingressFailed && id !in s.m.pending
      && (id in s.m.answers || HasHolder(s, id))
      && (NobodySending(s) ==> id in s.m.answers)
  {
    PostedPlay(cap, steps);
    var s := Play(Init(cap), steps).value;
    assert OwnCall(s.m, s.l, s.calls[k]);
  }

  /** A thread that holds senders can always use the next one: no reply channel is ever full. */
  lemma {:induction false} SendingNeverBlocks(cap: nat, steps: seq<Step>, k: nat, id: nat)
    requires cap >= 2 && Play(Init(cap), steps).Some?
    ensures var s := Play(Init(cap), steps).value;
      && (k < |s.calls| && id in HandOf(s.calls[k]) ==> Do(s, CallStep(k, Pick(id))).Some?)
      && (id in Hand(s.reader) ==> Do(s, ReaderStep(None, id)).Some?)
  {
    PostedPlay(cap, steps);
    var s := Play(Init(cap), steps).value;
    if k < |s.calls| {
      assert OwnCall(s.m, s.l, s.calls[k]);
    }
  }

  /**
   Reply routing over whole runs: ids are unique, the map stays within
   `EVENTS`, and every answer is the reply that carried the request's own id
   or a failure after the latch.
   */
  lemma {:induction false} RepliesAreRouted(cap: nat, steps: seq<Step>)
    requires cap >= 2 && Play(Init(cap), steps).Some?
    ensures var s := Play(Init(cap), steps).value;
      && |s.m.pending| <= cap
      && (forall j, k :: 0 <= j < k < |s.calls| && s.calls[j].id == s.calls[k].id ==> s.calls[j].id == 0)
      && (forall id: nat :: id in s.m.answers ==> Genuine(s.e.log, s.l, id, s.m.answers[id]))
  {
    PostedPlay(cap, steps);
    var s := Play(Init(cap), steps).value;
    assert forall j, k :: 0 <= j < k < |s.calls| ==> Apart(s.calls[j], s.calls[k]);
  }

  /** A reply to a pending request reaches it: the reader's next two steps can be taken and give it that answer. */
  lemma {:induction false} RepliesArrive(cap: nat, steps: seq<Step>, id: nat, failed: bool, body: int)
    requires cap >= 2 && Play(Init(cap), steps).Some?
    requires var s := Play(Init(cap), steps).value; s.reader.Reading? && id in s.m.pending
    ensures var p := Play(Init(cap), steps + [ReaderStep(Some(Message(None, Num(id), failed, body)), 0)] +
                                     [ReaderStep(None, 0)]);
      && p.Some? && id !in p.value.m.pending
      && id in p.value.m.answers && p.value.m.answers[id] == Reply(id, !failed, body)
  {
    PostedPlay(cap, steps);
    var first, second := ReaderStep(Some(Message(None, Num(id), failed, body)), 0), ReaderStep(None, 0);
    var more := steps + [first];
    assert more[..|more| - 1] == steps && (more + [second])[..|more + [second]| - 1] == more;
    var s, s' := Play(Init(cap), steps).value, Play(Init(cap), more).value;
    assert s'.reader == Answering(Reply(id, !failed, body)) && s'.m.answers == s.m.answers;
  }

  lemma {:induction false} ActKeepsAnswers(m: Mail, act: Act, id: nat)
    requires id in m.answers && (act.Deliver? ==> act.id !in m.answers)
    ensures id in Apply(m, act).answers && Apply(m, act).answers[id] == m.answers[id]
  {
  }

  /** An answer is given once: no later step changes or replaces it. */
  lemma {:induction false} AnsweredOnce(cap: nat, steps: seq<Step>, step: Step, id: nat)
    requires cap >= 2 && Play(Init(cap), steps).Some? && Do(Play(Init(cap), steps).value, step).Some?
    requires id in Play(Init(cap), steps).value.m.answers
    ensures var s := Play(Init(cap), steps).value; var s' := Do(s, step).value;
      id in s'.m.answers && s'.m.answers[id] == s.m.answers[id]
  {
    PostedPlay(cap, steps);
    var s := Play(Init(cap), steps).value;
    match step
    case CallStep(k, choice) =>
      assert OwnCall(s.m, s.l, s.calls[k]);
      CallActs(s.cap, s.m, s.l, s.p, k, s.calls[k], choice);
      CallKept(s.cap, s.m, s.l, s.p, k, s.calls[k], choice);
      ActKeepsAnswers(s.m, ActOfCall(s.cap, s.m, s.calls[k], choice), id);
    case ReaderStep(input, pick) =>
      ReaderActs(s.cap, s.m, s.e, s.l, s.reader, input, pick);
      ReaderKept(s.cap, s.m, s.e, s.l, s.reader, input, pick);
      ActKeepsAnswers(s.m, ActOfReader(s.m, s.reader, input, pick), id);
    case _ =>
  }

  /** The line the reader just took is a reply to `id`. */
  predicate RepliesTo(s: State, step: Step, id: nat) {
    && step.ReaderStep? && s.reader.Reading? && step.input.Some?
    && step.input.value.Message? && step.input.value.name.None? && step.input.value.id == Num(id)
  }

  /** The step is a drain: every sender goes into one hand, after the latch. */
  predicate Drains(s: State, step: Step) {
    || (step.CallStep? && step.k < |s.calls| && s.calls[step.k].pc.DrainingReplies?)
    || (step.ReaderStep? && s.reader.Draining?)
  }

  /**
   A slot leaves the map only by its own request's failure, timeout or drop,
   by the reply that carries its id, or by a drain, which will answer it.
   Nothing one request does removes another's slot otherwise.
   */
  lemma {:induction false} SlotLostOnlyToItsOwn(cap: nat, steps: seq<Step>, step: Step, id: nat)
    requires cap >= 2 && Play(Init(cap), steps).Some? && Do(Play(Init(cap), steps).value, step).Some?
    requires id in Play(Init(cap), steps).value.m.pending
    requires id !in Do(Play(Init(cap), steps).value, step).value.m.pending
    ensures var s := Play(Init(cap), steps).value; var s' := Do(s, step).value;
      || (step.CallStep? && s.calls[step.k].id == id && (s.calls[step.k].pc.CleaningUp? || s.calls[step.k].pc.Held?))
      || (RepliesTo(s, step, id) && id in s'.m.inHand)
      || (Drains(s, step) && s.l.ingressFailed && id in s'.m.inHand)
  {
    PostedPlay(cap, steps);
    var s := Play(Init(cap), steps).value;
    match step
    case CallStep(k, choice) =>
      assert OwnCall(s.m, s.l, s.calls[k]);
      CallActs(s.cap, s.m, s.l, s.p, k, s.calls[k], choice);
    case ReaderStep(input, pick) =>
      ReaderActs(s.cap, s.m, s.e, s.l, s.reader, input, pick);
    case _ =>
  }

  /** A restore request whose sender is in the map of a drained transport whose reader is gone. */
  predicate StrandedRestore(s: State) {
    && s.l.drained && s.reader.Ended? && NobodySending(s)
    && exists k :: 0 <= k < |s.calls| && s.calls[k].pc.Held? && s.calls[k].restore && s.calls[k].id in s.m.pending
  }

  // A concrete run: the stream ends, then one restore request is accepted.

  function Strand(k: nat, cap: nat): State {
    var latched := Latches(false, k >= 3, k >= 4, false);
    var events := Events(if k >= 6 then [Fault] else [], [], []);
    var reader :=
      if k == 0 then Reading else if k == 1 then Ending else if k == 2 then Latching(true) else if k == 3
          then Draining(true)
      else if k == 4 then Failing(true, {}) else if k == 5 then Publishing(true) else Ended(true);
    var pc :=
      if k <= 7 then FirstInterrupt else if k == 8 then FirstIngress else if k == 9 then Allocating
      else if k == 10 then Reserving else if k == 11 then SecondInterrupt else if k == 12 then SecondIngress
      else if k == 13 then Enqueuing else if k <= 18 then AwaitingWrite else Held;
    var pipe :=
      if k <= 13 then Pipe(None, map[], [], Receiving)
      else if k == 14 then Pipe(Some(0), map[], [], Receiving)
      else if k == 15 then Pipe(None, map[], [], Got(0))
      else if k == 16 then Pipe(None, map[], [], Passed(0))
      else if k == 17 then Pipe(None, map[], [], Writing(0))
      else Pipe(None, map[0 := Written], [Frame(0, true, true, false)], Receiving);
    State(cap, Mail(if k >= 10 then 2 else 1, if k >= 11 then {1} else {}, {}, map[]), events, latched, pipe, reader,
          if k >= 7 then [Call(true, true, if k >= 10 then 1 else 0, pc)] else [])
  }

  function StrandStep(k: nat): Step {
    if k < 6 then ReaderStep(None, 0) else if k == 6 then Begin(true, true)
    else if 14 <= k < 18 then WriterStep(true) else CallStep(0, Go)
  }

  lemma {:induction false} StrandReader(k: nat, cap: nat)
    requires cap >= 2 && k <= 6
    ensures Do(Strand(k, cap), StrandStep(k)) == Some(Strand(k + 1, cap))
  {
    var s, s' := Strand(k, cap), Strand(k + 1, cap);
    if k == 6 {
      assert s.calls + [Call(true, true, 0, FirstInterrupt)] == s'.calls;
    } else {
      var r := AdvanceReader(cap, s.m, s.e, s.l, s.reader, None, 0);
      assert s.m.inHand + s.m.pending == {} && s.e.queue + [Fault] == [Fault];
      assert r.ReaderEffect? && r.reader == s'.reader && r.l == s'.l;
      assert r.m == s'.m && r.e == s'.e;
    }
  }

  lemma {:induction false} StrandCall(k: nat, cap: nat)
    requires cap >= 2 && 7 <= k < 19 && !(14 <= k < 18)
    ensures Do(Strand(k, cap), StrandStep(k)) == Some(Strand(k + 1, cap))
  {
    var s, s' := Strand(k, cap), Strand(k + 1, cap);
    var r := AdvanceCall(cap, s.m, s.l, s.p, 0, s.calls[0], Go);
    assert r.CallEffect? && r.call == s'.calls[0] && r.m == s'.m;
    assert s.calls[0 := r.call] == s'.calls;
  }

  lemma {:induction false} StrandWriter(k: nat, cap: nat)
    requires cap >= 2 && 14 <= k < 18
    ensures Do(Strand(k, cap), StrandStep(k)) == Some(Strand(k + 1, cap))
  {
    var s, s' := Strand(k, cap), Strand(k + 1, cap);
    var r := AdvanceWriter(s.p, s.l, RestoreInHand(s), true);
    assert k == 17 ==> RestoreInHand(s);
    assert s.p.completions[0 := Written] == map[0 := Written];
    assert s.p.written + [Frame(0, true, true, false)] == [Frame(0, true, true, false)];
    assert r.PipeEffect? && r.p == s'.p;
  }

  function StrandSteps(n: nat): seq<Step> {
    if n == 0 then [] else StrandSteps(n - 1) + [StrandStep(n - 1)]
  }

  lemma {:induction false} StrandPlays(n: nat, cap: nat)
    requires cap >= 2 && n <= 19
    ensures |StrandSteps(n)| == n && Play(Init(cap), StrandSteps(n)) == Some(Strand(n, cap))
  {
    if n > 0 {
      StrandPlays(n - 1, cap);
      assert StrandSteps(n)[..n - 1] == StrandSteps(n - 1);
      if n - 1 <= 6 {
        StrandReader(n - 1, cap);
      } else if 14 <= n - 1 < 18 {
        StrandWriter(n - 1, cap);
      } else {
        StrandCall(n - 1, cap);
      }
    }
  }

  /**
   The word "ordinary" is needed: a restore request passes the latch, and one
   accepted after the reader has gone waits in the map for its own timeout.
   */
  lemma {:induction false} RestoreRequestsCanBeStranded(cap: nat)
    requires cap >= 2
    ensures exists steps :: Play(Init(cap), steps).Some? && StrandedRestore(Play(Init(cap), steps).value)
  {
    StrandPlays(19, cap);
    var s := Strand(19, cap);
    assert s.calls[0].pc.Held? && s.calls[0].id in s.m.pending;
    assert StrandedRestore(Play(Init(cap), StrandSteps(19)).value);
  }
}
