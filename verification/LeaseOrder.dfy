/**
 The order of restore, `Done` and kill. `Orderly` holds in every run;
 `Calm` holds in every run in which no turn begins after `interrupt`.
 */
module LeaseOrder {
  import opened Wrappers
  import opened Configuration
  import opened Lease
  import opened LeaseExclusion

  predicate Unfinished(th: Thread) {
    th.role.Turn? && !th.pc.Finished?
  }

  predicate Quiet(pc: Pc) {
    pc.Idle? || pc.Stopping? || pc.Finished?
  }

  predicate At(pc: Pc, at: TurnPc) {
    pc.Turning? && pc.turn == at
  }

  /** What thread `t` tells about the latches, given where the caller is. */
  predicate OrderlyAt(c: Cells, caller: Pc, t: int, th: Thread) {
    && (t == 1 && (th.pc.Restoring? || th.pc.Reporting?) ==> c.ingressFailed)
    && (t == 1 && At(caller, Marking) ==> c.interrupted || th.pc.Listening? || th.pc.Finished?)
    && (th.role.Worker? ==> c.interrupted || c.dropped)
    && (Unfinished(th) ==> c.interrupted || c.ingressFailed || !c.done)
    && (Unfinished(th) && (At(caller, Marking) || At(caller, Spawning)) ==> c.interrupted)
  }

  predicate OrderlyCaller(c: Cells, caller: Pc) {
    && (At(caller, Spawning) ==> c.interrupted || c.ingressFailed || !c.done)
    && (c.dropped ==> caller.Finished?)
    && (caller.Stopping? ==> c.interrupted)
    && (c.killed ==> c.interrupted || c.dropped)
  }

  predicate Orderly(x: Session) {
    && |x.threads| > 0
    && OrderlyCaller(x.c, x.threads[0].pc)
    && (forall t :: 0 <= t < |x.threads| ==> OrderlyAt(x.c, x.threads[0].pc, t, x.threads[t]))
    && (forall t, u :: 0 <= t < u < |x.threads| && Unfinished(x.threads[t]) && Unfinished(x.threads[u])
          ==> x.c.interrupted || x.c.ingressFailed)
  }

  /** What a thread's step does to the latches and to `done`. */
  predicate Flow(c: Cells, c': Cells, pc: Pc, pc': Pc) {
    && c'.ingressFailed == c.ingressFailed && c'.interrupted == c.interrupted && c'.dropped == c.dropped
    && (c'.done && !c.done ==> pc.Reporting? || pc.Stopping?)
    && (!c'.done && c.done ==> At(pc, Marking))
    && (At(pc, Marking) ==> !c'.done)
    && (At(pc', Marking) ==> At(pc, Prompting) && !c.ingressFailed)
    && (At(pc', Spawning) ==> At(pc, Marking))
    && (c'.killed && !c.killed ==> pc.Killing?)
    && !pc.Finished? && !pc'.Stopping?
    && (pc'.Reporting? ==> pc.Restoring?)
    && (pc'.Restoring? && pc.Listening? ==> !c.done && c.ingressFailed)
    && (pc.Reporting? ==> pc'.Finished?)
  }

  lemma {:induction false} FlowTurn(spec: Spec, c: Cells, w: World, at: TurnPc, yes: bool, reply: Ladder)
    requires AdvanceTurn(spec, c, w, at, yes, reply).Effect?
    ensures var e := AdvanceTurn(spec, c, w, at, yes, reply); Flow(c, e.c, Turning(at), e.pc)
  {
  }

  lemma {:induction false} FlowRestore(c: Cells, w: World, t: nat, role: Role, at: RestorePc, yes: bool)
    requires AdvanceRestore(c, w, t, role, at, yes).Effect?
    ensures var e := AdvanceRestore(c, w, t, role, at, yes); Flow(c, e.c, Restoring(at), e.pc)
  {
  }

  lemma {:induction false} FlowSteps(spec: Spec, c: Cells, w: World, t: nat, th: Thread, yes: bool, reply: Ladder)
    requires Advance(spec, c, w, t, th, yes, reply).Effect?
    ensures var e := Advance(spec, c, w, t, th, yes, reply); Flow(c, e.c, th.pc, e.pc)
  {
    match th.pc
    case Turning(at) => FlowTurn(spec, c, w, at, yes, reply);
    case Restoring(at) => FlowRestore(c, w, t, th.role, at, yes);
    case _ =>
  }

  /** The stepping thread stays orderly. */
  lemma {:induction false} OrderlySelf(c: Cells, c': Cells, caller: Pc, t: nat, th: Thread, pc: Pc)
    requires Own(c, t, th) && Fits(th.(pc := pc)) && (t == 0 ==> caller == th.pc)
    requires Flow(c, c', th.pc, pc)
    requires OrderlyAt(c, caller, t, th) && (Starting(caller) ==> c.done)
    ensures OrderlyAt(c', if t == 0 then pc else caller, t, th.(pc := pc))
  {
  }

  /** Another thread `u` stays orderly: `done` is raised against it only by a latched or interrupted session. */
  lemma {:induction false} OrderlyPeer(c: Cells, c': Cells, caller: Pc, t: nat, th: Thread, pc: Pc, u: nat,
                                       peer: Thread)
    requires t != u && Own(c, t, th) && Own(c, u, peer) && (t == 0 ==> caller == th.pc)
      && (u == 0 ==> caller == peer.pc)
    requires Flow(c, c', th.pc, pc) && OrderlyCaller(c, caller)
    requires OrderlyAt(c, caller, t, th) && OrderlyAt(c, caller, u, peer) && (Starting(caller) ==> c.done)
    requires Unfinished(th) && Unfinished(peer) ==> c.interrupted || c.ingressFailed
    ensures OrderlyAt(c', if t == 0 then pc else caller, u, peer)
  {
  }

  lemma {:induction false} OrderlyCallerKept(c: Cells, c': Cells, caller: Pc, t: nat, th: Thread, pc: Pc)
    requires Own(c, t, th) && (t == 0 ==> caller == th.pc) && Fits(th.(pc := pc))
    requires Flow(c, c', th.pc, pc) && OrderlyCaller(c, caller) && OrderlyAt(c, caller, t, th)
    ensures OrderlyCaller(c', if t == 0 then pc else caller)
  {
  }

  lemma {:induction false} OrderlyMoved(x: Session, t: nat, pc: Pc, c: Cells)
    requires Shape(x) && Orderly(x) && t < |x.threads|
    requires Steps(x.c, c, t, x.threads[t], pc) && Flow(x.c, c, x.threads[t].pc, pc)
    ensures Orderly(Moved(x, t, pc, c))
  {
    var y, th, caller := Moved(x, t, pc, c), x.threads[t], x.threads[0].pc;
    var caller' := if t == 0 then pc else caller;
    assert Own(x.c, t, th) && Own(x.c, 0, x.threads[0]) && OrderlyAt(x.c, caller, t, th);
    assert y.threads[0].pc == caller';
    OrderlyCallerKept(x.c, c, caller, t, th, pc);
    forall u | 0 <= u < |y.threads| ensures OrderlyAt(c, caller', u, y.threads[u]) {
      if u == t {
        OrderlySelf(x.c, c, caller, t, th, pc);
      } else if u < |x.threads| {
        assert Own(x.c, u, x.threads[u]) && OrderlyAt(x.c, caller, u, x.threads[u]);
        OrderlyPeer(x.c, c, caller, t, th, pc, u, x.threads[u]);
      } else {
        assert At(caller, Spawning);
      }
    }
    forall u, v | 0 <= u < v < |y.threads| && Unfinished(y.threads[u]) && Unfinished(y.threads[v])
      ensures c.interrupted || c.ingressFailed
    {
      assert Unfinished(x.threads[u]) && OrderlyAt(x.c, caller, u, x.threads[u]);
    }
  }

  lemma {:induction false} OrderlyWorker(x: Session, pc: Pc, c: Cells)
    requires Shape(x) && Orderly(x) && CallerIdle(x)
    requires (pc.Stopping? && c == x.c.(interrupted := true)) || (pc.Finished? && c == x.c.(dropped := true))
    ensures Orderly(WithWorker(x, pc, c))
  {
    var y := WithWorker(x, pc, c);
    forall u | 0 <= u < |y.threads| ensures OrderlyAt(c, pc, u, y.threads[u]) {
      if u < |x.threads| {
        assert Own(x.c, u, x.threads[u]) && OrderlyAt(x.c, x.threads[0].pc, u, x.threads[u]);
      }
    }
    assert Own(x.c, 0, x.threads[0]);
    forall u, v | 0 <= u < v < |y.threads| && Unfinished(y.threads[u]) && Unfinished(y.threads[v])
      ensures c.interrupted || c.ingressFailed
    {
      assert Own(x.c, u, x.threads[u]) && Own(x.c, v, x.threads[v]);
      assert Unfinished(x.threads[u]) && Unfinished(x.threads[v]);
    }
  }

  lemma {:induction false} OrderlyLatch(x: Session)
    requires Orderly(x)
    ensures Orderly(x.(c := x.c.(ingressFailed := true)))
  {
    assert forall t :: 0 <= t < |x.threads| ==> OrderlyAt(x.c, x.threads[0].pc, t, x.threads[t]);
  }

  lemma {:induction false} OrderlyBegin(x: Session)
    requires Shape(x) && Orderly(x) && MayBegin(x)
    ensures Orderly(Moved(x, 0, Turning(Checked), x.c))
  {
    var y := Moved(x, 0, Turning(Checked), x.c);
    assert Own(x.c, 0, x.threads[0]);
    forall u | 0 <= u < |y.threads| ensures OrderlyAt(x.c, y.threads[0].pc, u, y.threads[u]) {
      assert OrderlyAt(x.c, x.threads[0].pc, u, x.threads[u]);
    }
    forall u, v | 0 <= u < v < |y.threads| && Unfinished(y.threads[u]) && Unfinished(y.threads[v])
      ensures x.c.interrupted || x.c.ingressFailed
    {
      assert Unfinished(x.threads[v]) && (u == 0 || Unfinished(x.threads[u]));
    }
  }

  predicate AllOrderly(s: State) {
    forall i :: 0 <= i < |s.sessions| ==> Orderly(s.sessions[i])
  }

  lemma {:induction false} OrderlyDo(s: State, step: Step)
    requires Shaped(s) && AllOrderly(s) && Do(s, step).Some?
    ensures AllOrderly(Do(s, step).value)
  {
    match step
    case Open(_) =>
    case Latch(i) => OrderlyLatch(s.sessions[i]);
    case BeginTurn(i) => OrderlyBegin(s.sessions[i]);
    case Interrupt(i) => OrderlyWorker(s.sessions[i], Stopping, s.sessions[i].c.(interrupted := true));
    case Drop(i) => OrderlyWorker(s.sessions[i], Finished, s.sessions[i].c.(dropped := true));
    case Run(i, t, yes, reply) =>
      var x := s.sessions[i];
      assert Shape(x) && Own(x.c, t, x.threads[t]);
      var e := Advance(x.spec, x.c, s.w, t, x.threads[t], yes, reply);
      AdvanceSteps(x.spec, x.c, s.w, t, x.threads[t], yes, reply);
      FlowSteps(x.spec, x.c, s.w, t, x.threads[t], yes, reply);
      OrderlyMoved(x, t, e.pc, e.c);
  }

  lemma {:induction false} OrderlyPlay(store: Store, steps: seq<Step>)
    requires Play(Init(store), steps).Some?
    ensures AllOrderly(Play(Init(store), steps).value)
    decreases |steps|
  {
    if steps != [] {
      var before := steps[..|steps| - 1];
      OrderlyPlay(store, before);
      ExclusivePlay(store, before);
      OrderlyDo(Play(Init(store), before).value, steps[|steps| - 1]);
    }
  }

  /** No turn begins on a session after `interrupt`. */
  predicate CalmStep(s: State, step: Step) {
    step.BeginTurn? && step.i < |s.sessions| ==> !s.sessions[step.i].c.interrupted
  }

  ghost predicate CalmRun(s: State, steps: seq<Step>)
    decreases |steps|
  {
    steps != [] ==>
      var before := steps[..|steps| - 1];
      CalmRun(s, before) && (Play(s, before).Some? ==> CalmStep(Play(s, before).value, steps[|steps| - 1]))
  }

  /** The thread is past its restore: a worker for good, the others while their `Done` is still owed. */
  predicate Past(c: Cells, th: Thread) {
    if th.role.Worker? then (th.pc.Restoring? && th.pc.at.Unlock?) || th.pc.Killing? || th.pc.Finished?
    else !th.role.Caller? && !c.done && ((th.pc.Restoring? && th.pc.at.Unlock?) || th.pc.Reporting?)
  }

  predicate Calm(x: Session, i: int, tok: Token) {
    && |x.threads| > 0
    && (x.c.interrupted ==> Quiet(x.threads[0].pc))
    && (x.c.killed ==> !Belongs(tok, i))
    && (forall t :: 0 <= t < |x.threads| && Past(x.c, x.threads[t]) ==> !Belongs(tok, i))
  }

  /** While one thread has the lock and has not swapped, no thread is putting anything back. */
  lemma {:induction false} NotRestored(x: Session, i: nat, t: nat, u: nat, tok: Token)
    requires Shape(x) && HoldsAs(x, i, tok) && t < |x.threads| && u < |x.threads|
    requires x.threads[t].pc == Restoring(HaveLock)
    ensures tok != Restored(i, u)
  {
    assert Own(x.c, t, x.threads[t]) && Own(x.c, u, x.threads[u]) && Agrees(i, u, x.threads[u], tok);
  }

  /** A thread that gets the restore lock and finds the flag down finds the lease with nobody of its session. */
  lemma {:induction false} NothingLeft(x: Session, i: nat, t: nat, tok: Token)
    requires Shape(x) && Orderly(x) && HoldsAs(x, i, tok) && Calm(x, i, tok) && t < |x.threads|
    requires x.threads[t].pc == Restoring(HaveLock) && !x.c.hasLease
    requires x.threads[t].role.Worker? || !x.c.done
    ensures !Belongs(tok, i)
  {
    assert Own(x.c, t, x.threads[t]) && Own(x.c, 0, x.threads[0]) && OrderlyAt(x.c, x.threads[0].pc, t, x.threads[t]);
    assert Agrees(i, 0, x.threads[0], tok);
    if tok.Restored? && tok.i == i {
      NotRestored(x, i, t, tok.t, tok);
    }
  }

  /** The lease enters a session only by its caller's compare-exchange. */
  lemma {:induction false} TokenEnters(c: Cells, i: nat, t: nat, pc: Pc, lease: bool, tok: Token)
    requires Passes(i, t, tok, TokenAfter(c, i, t, pc, lease, tok))
    requires c.hasLease <==> tok.Flagged? && tok.i == i
    requires At(pc, Taken) ==> Belongs(tok, i)
    ensures Belongs(TokenAfter(c, i, t, pc, lease, tok), i) && !Belongs(tok, i) ==> At(pc, Checked)
  {
  }

  /** No thread is past its restore when the caller enters a session or clears `done`. */
  lemma {:induction false} NobodyPast(x: Session, u: nat)
    requires Shape(x) && Orderly(x) && (x.c.interrupted ==> Quiet(x.threads[0].pc)) && u < |x.threads|
    requires At(x.threads[0].pc, Checked) || At(x.threads[0].pc, Marking)
    ensures !Past(x.c, x.threads[u]) && !x.c.killed
    ensures At(x.threads[0].pc, Marking) ==> !Past(x.c.(done := false), x.threads[u])
  {
    assert Own(x.c, u, x.threads[u]) && Own(x.c, 0, x.threads[0]) && OrderlyAt(x.c, x.threads[0].pc, u, x.threads[u]);
  }

  /** How a thread gets past its restore, and how `done` is cleared. */
  predicate GetsPast(c: Cells, c': Cells, pc: Pc, pc': Pc) {
    && (pc' == Restoring(Unlock) ==> pc == Restoring(Release) || (pc == Restoring(HaveLock) && !c.hasLease))
    && (pc'.Killing? || pc'.Reporting? ==> pc == Restoring(Unlock))
    && (pc'.Finished? ==> pc.Killing? || pc.Reporting? || pc.Listening?)
    && (c.done && !c'.done ==> c' == c.(done := false, begun := c.begun + 1))
  }

  lemma {:induction false} PastTurn(spec: Spec, c: Cells, w: World, at: TurnPc, yes: bool, reply: Ladder)
    requires AdvanceTurn(spec, c, w, at, yes, reply).Effect?
    ensures var e := AdvanceTurn(spec, c, w, at, yes, reply); GetsPast(c, e.c, Turning(at), e.pc)
  {
  }

  lemma {:induction false} PastSteps(spec: Spec, c: Cells, w: World, t: nat, th: Thread, yes: bool, reply: Ladder)
    requires Advance(spec, c, w, t, th, yes, reply).Effect?
    ensures var e := Advance(spec, c, w, t, th, yes, reply); GetsPast(c, e.c, th.pc, e.pc)
  {
    match th.pc
    case Turning(at) => PastTurn(spec, c, w, at, yes, reply);
    case Restoring(at) =>
    case _ =>
  }

  lemma {:induction false} CalmMoved(x: Session, i: nat, w: World, t: nat, yes: bool, reply: Ladder, tok: Token)
    requires Shape(x) && Orderly(x) && HoldsAs(x, i, tok) && Calm(x, i, tok) && t < |x.threads|
    requires w.lease <==> tok != Nobody
    requires Advance(x.spec, x.c, w, t, x.threads[t], yes, reply).Effect?
    ensures var e := Advance(x.spec, x.c, w, t, x.threads[t], yes, reply);
      Calm(Moved(x, t, e.pc, e.c), i, TokenAfter(x.c, i, t, x.threads[t].pc, w.lease, tok))
  {
    var th := x.threads[t];
    var e, tok' := Advance(x.spec, x.c, w, t, th, yes, reply), TokenAfter(x.c, i, t, th.pc, w.lease, tok);
    var y := Moved(x, t, e.pc, e.c);
    assert Own(x.c, t, th) && Own(x.c, 0, x.threads[0]) && Agrees(i, t, th, tok)
      && OrderlyAt(x.c, x.threads[0].pc, t, th);
    TokenSteps(x.spec, x.c, w, i, t, th, yes, reply, tok);
    AdvanceSteps(x.spec, x.c, w, t, th, yes, reply);
    FlowSteps(x.spec, x.c, w, t, th, yes, reply);
    PastSteps(x.spec, x.c, w, t, th, yes, reply);
    TokenEnters(x.c, i, t, th.pc, w.lease, tok);
    if At(th.pc, Checked) || At(th.pc, Marking) {
      assert t == 0;
      forall u | 0 <= u < |x.threads| ensures !Past(x.c, x.threads[u]) && !x.c.killed
        && (At(th.pc, Marking) ==> !Past(x.c.(done := false), x.threads[u]))
      {
        NobodyPast(x, u);
      }
    }
    forall u | 0 <= u < |y.threads| && Past(e.c, y.threads[u]) ensures !Belongs(tok', i) {
      if u == t {
        if th.pc == Restoring(HaveLock) {
          NothingLeft(x, i, t, tok);
        }
      } else {
        assert u < |x.threads|;
      }
    }
  }

  predicate AllCalm(s: State, tok: Token) {
    forall i :: 0 <= i < |s.sessions| ==> Calm(s.sessions[i], i, tok)
  }

  lemma {:induction false} CalmElsewhere(x: Session, i: int, t: int, j: int, tok: Token, tok': Token)
    requires Calm(x, j, tok) && i != j && Passes(i, t, tok, tok')
    ensures Calm(x, j, tok')
  {
  }

  lemma {:induction false} CalmWorker(x: Session, i: int, pc: Pc, c: Cells, tok: Token)
    requires Shape(x) && Calm(x, i, tok) && CallerIdle(x)
    requires (pc.Stopping? && c == x.c.(interrupted := true)) || (pc.Finished? && c == x.c.(dropped := true))
    ensures Calm(WithWorker(x, pc, c), i, tok)
  {
    var y := WithWorker(x, pc, c);
    assert Own(x.c, 0, x.threads[0]);
    assert forall t :: 0 <= t < |y.threads| && Past(c, y.threads[t]) ==> t < |x.threads| && Past(x.c, x.threads[t]);
  }

  lemma {:induction false} CalmBegin(x: Session, i: int, tok: Token)
    requires Shape(x) && Calm(x, i, tok) && MayBegin(x) && !x.c.interrupted
    ensures Calm(Moved(x, 0, Turning(Checked), x.c), i, tok)
  {
    var y := Moved(x, 0, Turning(Checked), x.c);
    assert Own(x.c, 0, x.threads[0]);
    assert forall t :: 0 <= t < |y.threads| && Past(x.c, y.threads[t]) ==> Past(x.c, x.threads[t]);
  }

  lemma {:induction false} CalmRunStep(s: State, tok: Token, i: nat, t: nat, yes: bool, reply: Ladder)
    requires Exclusive(s, tok) && AllOrderly(s) && AllCalm(s, tok) && Do(s, Run(i, t, yes, reply)).Some?
    ensures AllCalm(Do(s, Run(i, t, yes, reply)).value, NextToken(s, tok, Run(i, t, yes, reply)))
  {
    var x := s.sessions[i];
    var tok' := NextToken(s, tok, Run(i, t, yes, reply));
    assert Shape(x) && Orderly(x) && HoldsAs(x, i, tok) && Calm(x, i, tok);
    assert Own(x.c, t, x.threads[t]) && Agrees(i, t, x.threads[t], tok);
    CalmMoved(x, i, s.w, t, yes, reply, tok);
    TokenSteps(x.spec, x.c, s.w, i, t, x.threads[t], yes, reply, tok);
    forall j | 0 <= j < |s.sessions| && j != i ensures Calm(s.sessions[j], j, tok') {
      CalmElsewhere(s.sessions[j], i, t, j, tok, tok');
    }
  }

  lemma {:induction false} CalmDo(s: State, tok: Token, step: Step)
    requires Exclusive(s, tok) && AllOrderly(s) && AllCalm(s, tok) && Do(s, step).Some? && CalmStep(s, step)
    ensures AllCalm(Do(s, step).value, NextToken(s, tok, step))
  {
    match step
    case Open(_) =>
    case Latch(i) =>
    case BeginTurn(i) => CalmBegin(s.sessions[i], i, tok);
    case Interrupt(i) => CalmWorker(s.sessions[i], i, Stopping, s.sessions[i].c.(interrupted := true), tok);
    case Drop(i) => CalmWorker(s.sessions[i], i, Finished, s.sessions[i].c.(dropped := true), tok);
    case Run(i, t, yes, reply) => CalmRunStep(s, tok, i, t, yes, reply);
  }

  lemma {:induction false} CalmPlay(store: Store, steps: seq<Step>)
    requires Play(Init(store), steps).Some? && CalmRun(Init(store), steps)
    ensures AllCalm(Play(Init(store), steps).value, Holder(store, steps))
    decreases |steps|
  {
    if steps != [] {
      var before := steps[..|steps| - 1];
      CalmPlay(store, before);
      ExclusivePlay(store, before);
      OrderlyPlay(store, before);
      CalmDo(Play(Init(store), before).value, Holder(store, before), steps[|steps| - 1]);
    }
  }

  /** Nothing of the session's configuration is left to put back, and its lease is released. */
  predicate PutAway(x: Session) {
    && !Holds(x) && !x.c.hasLease
    && (forall u :: 0 <= u < |x.threads| ==> !Putting(x.threads[u].pc))
  }

  lemma {:induction false} PutAwayWithoutToken(x: Session, i: int, tok: Token)
    requires Shape(x) && HoldsAs(x, i, tok) && !Belongs(tok, i)
    ensures PutAway(x)
  {
    HoldsIsToken(x, i, tok);
    assert forall u :: 0 <= u < |x.threads| ==> Agrees(i, u, x.threads[u], tok);
  }

  /** The next step of thread `t` emits a `Done`. */
  predicate EmitsDone(x: Session, w: World, t: nat, yes: bool, reply: Ladder)
    requires t < |x.threads|
  {
    var e := Advance(x.spec, x.c, w, t, x.threads[t], yes, reply);
    e.Effect? && e.c.dones > x.c.dones
  }

  /**
   In every run with no turn after `interrupt`, a `Done` that the turn thread
   or the fault path emits comes after the restore: the session holds nothing
   and nothing is being put back, whichever thread won the race to restore.
   */
  lemma {:induction false} DoneAfterRestore(store: Store, steps: seq<Step>, i: nat, t: nat, yes: bool, reply: Ladder)
    requires Play(Init(store), steps).Some? && CalmRun(Init(store), steps)
    requires var s := Play(Init(store), steps).value;
      && i < |s.sessions| && t < |s.sessions[i].threads| && !s.sessions[i].threads[t].role.Caller?
      && EmitsDone(s.sessions[i], s.w, t, yes, reply)
    ensures PutAway(Play(Init(store), steps).value.sessions[i])
  {
    CalmPlay(store, steps);
    ExclusivePlay(store, steps);
    var s, tok := Play(Init(store), steps).value, Holder(store, steps);
    var x := s.sessions[i];
    assert Shape(x) && HoldsAs(x, i, tok) && Calm(x, i, tok) && Own(x.c, t, x.threads[t]);
    DoneIsReported(x.spec, x.c, s.w, t, x.threads[t], yes, reply);
    assert Past(x.c, x.threads[t]);
    PutAwayWithoutToken(x, i, tok);
  }

  lemma {:induction false} DoneIsReported(spec: Spec, c: Cells, w: World, t: nat, th: Thread, yes: bool, reply: Ladder)
    requires Fits(th) && !th.role.Caller?
    requires var e := Advance(spec, c, w, t, th, yes, reply); e.Effect? && e.c.dones > c.dones
    ensures th.pc.Reporting? && !c.done
  {
    assert !th.pc.Turning? && !th.pc.Stopping?;
    if th.pc.Restoring? {
      RestoreKeepsDone(c, w, t, th.role, th.pc.at, yes);
    }
  }

  lemma {:induction false} RestoreKeepsDone(c: Cells, w: World, t: nat, role: Role, at: RestorePc, yes: bool)
    requires AdvanceRestore(c, w, t, role, at, yes).Effect?
    ensures AdvanceRestore(c, w, t, role, at, yes).c.dones == c.dones
  {
  }

  /**
   In every run with no turn after `interrupt`, a teardown worker kills only
   once everything is put back, however many workers run together.
   */
  lemma {:induction false} KillAfterRestore(store: Store, steps: seq<Step>, i: nat, t: nat)
    requires Play(Init(store), steps).Some? && CalmRun(Init(store), steps)
    requires var s := Play(Init(store), steps).value;
      i < |s.sessions| && t < |s.sessions[i].threads| && s.sessions[i].threads[t].pc.Killing?
    ensures PutAway(Play(Init(store), steps).value.sessions[i])
  {
    CalmPlay(store, steps);
    ExclusivePlay(store, steps);
    var s, tok := Play(Init(store), steps).value, Holder(store, steps);
    var x := s.sessions[i];
    assert Shape(x) && HoldsAs(x, i, tok) && Calm(x, i, tok) && Own(x.c, t, x.threads[t]);
    assert Past(x.c, x.threads[t]);
    PutAwayWithoutToken(x, i, tok);
  }

  /** So no restore ever meets a child its own session has killed. */
  lemma {:induction false} KilledIsPutAway(store: Store, steps: seq<Step>, i: nat)
    requires Play(Init(store), steps).Some? && CalmRun(Init(store), steps)
    requires i < |Play(Init(store), steps).value.sessions| && Play(Init(store), steps).value.sessions[i].c.killed
    ensures PutAway(Play(Init(store), steps).value.sessions[i])
  {
    CalmPlay(store, steps);
    ExclusivePlay(store, steps);
    var s, tok := Play(Init(store), steps).value, Holder(store, steps);
    assert Shape(s.sessions[i]) && HoldsAs(s.sessions[i], i, tok) && Calm(s.sessions[i], i, tok);
    PutAwayWithoutToken(s.sessions[i], i, tok);
  }
}
