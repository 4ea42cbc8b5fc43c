/**
 What every interleaving keeps, with no premise on the callers: the shape of
 a session, the exclusion of the lease, and the accounting of `Done`.
 */
module LeaseExclusion {
  import opened Wrappers
  import opened Configuration
  import opened Lease

  /** The thread has the restore lock. */
  predicate Inside(pc: Pc) {
    pc.Restoring? && !pc.at.WantLock?
  }

  /** The thread won the restore and has not released the lease yet. */
  predicate Putting(pc: Pc) {
    pc.Restoring? && (pc.at.Take? || pc.at.PutBack? || pc.at.Release?)
  }

  /** The caller is between reading `done` true and clearing it. */
  predicate Starting(pc: Pc) {
    pc.Turning? && !pc.turn.Spawning?
  }

  predicate HasTaken(pc: Pc) {
    pc.Turning? && pc.turn.Taken?
  }

  predicate Fits(th: Thread) {
    match th.role
    case Caller => th.pc.Idle? || th.pc.Turning? || th.pc.Stopping? || th.pc.Restoring? || th.pc.Finished?
    case Events => th.pc.Listening? || th.pc.Restoring? || th.pc.Reporting? || th.pc.Finished?
    case Turn => th.pc.Waiting? || th.pc.Restoring? || th.pc.Reporting? || th.pc.Finished?
    case Worker => th.pc.Polling? || th.pc.Restoring? || th.pc.Killing? || th.pc.Finished?
  }

  predicate Balanced(c: Cells) {
    c.dones + (if c.done then 0 else 1) == c.begun
  }

  predicate RoleAt(t: int, role: Role) {
    if t == 0 then role.Caller? else if t == 1 then role.Events? else role.Turn? || role.Worker?
  }

  /** Everything thread `t` knows about itself and the cells. */
  predicate Own(c: Cells, t: int, th: Thread) {
    && RoleAt(t, th.role)
    && Fits(th)
    && (Inside(th.pc) <==> c.lock.Some? && c.lock.value == t)
    && (Starting(th.pc) ==> c.done)
  }

  predicate Shape(x: Session) {
    && |x.threads| >= 2
    && Balanced(x.c)
    && (x.c.lock.Some? ==> x.c.lock.value < |x.threads|)
    && (forall t :: 0 <= t < |x.threads| ==> Own(x.c, t, x.threads[t]))
  }

  predicate Shaped(s: State) {
    forall i :: 0 <= i < |s.sessions| ==> Shape(s.sessions[i])
  }

  /** What a step of thread `t` leaves for the other threads. */
  predicate Steps(c: Cells, c': Cells, t: nat, th: Thread, pc: Pc) {
    && Own(c', t, th.(pc := pc))
    && Balanced(c')
    && (c'.lock == c.lock || (c.lock.None? && c'.lock == Some(t)) || (c.lock == Some(t) && c'.lock.None?))
    && (t != 0 && c.done ==> c'.done)
  }

  lemma {:induction false} TurnSteps(spec: Spec, c: Cells, w: World, t: nat, th: Thread, yes: bool, reply: Ladder)
    requires Own(c, t, th) && Balanced(c) && th.pc.Turning?
    requires AdvanceTurn(spec, c, w, th.pc.turn, yes, reply).Effect?
    ensures var e := AdvanceTurn(spec, c, w, th.pc.turn, yes, reply); Steps(c, e.c, t, th, e.pc)
  {
    var e := AdvanceTurn(spec, c, w, th.pc.turn, yes, reply);
    TurnEffect(spec, c, w, th.pc.turn, yes, reply);
    assert t == 0 && th.role.Caller? && !Inside(th.pc) && !Inside(e.pc);
  }

  /** A turn leaves the lock alone, ends in no lock, and clears `done` only after reading it true. */
  lemma {:induction false} TurnEffect(spec: Spec, c: Cells, w: World, at: TurnPc, yes: bool, reply: Ladder)
    requires AdvanceTurn(spec, c, w, at, yes, reply).Effect?
    ensures var e := AdvanceTurn(spec, c, w, at, yes, reply);
      && (e.pc.Idle? || e.pc.Turning? || e.pc == Restoring(WantLock)) && e.c.lock == c.lock && e.c.dones == c.dones
      && (if at.Marking? then e.pc == Turning(Spawning) && !e.c.done && e.c.begun == c.begun + 1
          else e.c.done == c.done && e.c.begun == c.begun)
      && (at.Spawning? ==> e.pc.Idle?)
  {
  }

  lemma {:induction false} RestoreSteps(c: Cells, w: World, t: nat, th: Thread, yes: bool)
    requires Own(c, t, th) && Balanced(c) && th.pc.Restoring?
    requires AdvanceRestore(c, w, t, th.role, th.pc.at, yes).Effect?
    ensures var e := AdvanceRestore(c, w, t, th.role, th.pc.at, yes); Steps(c, e.c, t, th, e.pc)
  {
    RestoreEffect(c, w, t, th.role, th.pc.at, yes);
  }

  /** A restore runs from lock to unlock and gives the lease up exactly if it found the session's flag. */
  lemma {:induction false} RestoreEffect(c: Cells, w: World, t: nat, role: Role, at: RestorePc, yes: bool)
    requires AdvanceRestore(c, w, t, role, at, yes).Effect?
    ensures var e := AdvanceRestore(c, w, t, role, at, yes);
      && e.c.done == c.done && e.c.begun == c.begun && e.c.dones == c.dones
      && (if at.WantLock? then c.lock.None? && e.c.lock == Some(t) else e.c.lock == if at.Unlock? then None else c.lock)
      && (if at.Unlock? then e.pc == AfterRestore(role) else Inside(e.pc))
      && (Putting(e.pc) <==> (at.HaveLock? && c.hasLease) || at.Take? || at.PutBack?)
      && e.c.hasLease == (c.hasLease && !at.HaveLock?)
      && e.w.lease == (w.lease && !at.Release?)
  {
    match at
    case PutBack(_) =>
    case _ =>
  }

  lemma {:induction false} OtherSteps(c: Cells, w: World, t: nat, th: Thread)
    requires Own(c, t, th) && Balanced(c)
    requires AdvanceOther(c, w, th.pc).Effect?
    ensures var e := AdvanceOther(c, w, th.pc); Steps(c, e.c, t, th, e.pc)
  {
  }

  lemma {:induction false} AdvanceSteps(spec: Spec, c: Cells, w: World, t: nat, th: Thread, yes: bool, reply: Ladder)
    requires Own(c, t, th) && Balanced(c)
    requires Advance(spec, c, w, t, th, yes, reply).Effect?
    ensures var e := Advance(spec, c, w, t, th, yes, reply); Steps(c, e.c, t, th, e.pc)
  {
    match th.pc
    case Turning(_) => TurnSteps(spec, c, w, t, th, yes, reply);
    case Restoring(_) => RestoreSteps(c, w, t, th, yes);
    case _ => OtherSteps(c, w, t, th);
  }

  lemma {:induction false} ShapeMoved(x: Session, t: nat, pc: Pc, c: Cells)
    requires Shape(x) && t < |x.threads| && Steps(x.c, c, t, x.threads[t], pc)
    ensures Shape(Moved(x, t, pc, c))
  {
    var y := Moved(x, t, pc, c);
    forall u | 0 <= u < |y.threads| ensures Own(c, u, y.threads[u]) {
      if u < |x.threads| {
        assert Own(x.c, u, x.threads[u]) && Own(x.c, t, x.threads[t]) && Own(x.c, 0, x.threads[0]);
      }
    }
  }

  lemma {:induction false} ShapeWorker(x: Session, pc: Pc, c: Cells)
    requires Shape(x) && CallerIdle(x) && (pc.Stopping? || pc.Finished?)
    requires c.lock == x.c.lock && Balanced(c) && c.done == x.c.done
    ensures Shape(WithWorker(x, pc, c))
  {
    var y := WithWorker(x, pc, c);
    forall u | 0 <= u < |y.threads| ensures Own(c, u, y.threads[u]) {
      if u < |x.threads| {
        assert Own(x.c, u, x.threads[u]);
      }
    }
  }

  lemma {:induction false} ShapedDo(s: State, step: Step)
    requires Shaped(s) && Do(s, step).Some?
    ensures Shaped(Do(s, step).value)
  {
    match step
    case Open(_) =>
    case Latch(i) =>
      assert Shape(s.sessions[i]);
      assert forall t :: 0 <= t < |s.sessions[i].threads| ==> Own(s.sessions[i].c, t, s.sessions[i].threads[t]);
    case BeginTurn(i) => ShapeMoved(s.sessions[i], 0, Turning(Checked), s.sessions[i].c);
    case Interrupt(i) => ShapeWorker(s.sessions[i], Stopping, s.sessions[i].c.(interrupted := true));
    case Drop(i) => ShapeWorker(s.sessions[i], Finished, s.sessions[i].c.(dropped := true));
    case Run(i, t, yes, reply) =>
      var x := s.sessions[i];
      var e := Advance(x.spec, x.c, s.w, t, x.threads[t], yes, reply);
      AdvanceSteps(x.spec, x.c, s.w, t, x.threads[t], yes, reply);
      ShapeMoved(x, t, e.pc, e.c);
  }

  /** Which part of which session the lease is with. */
  datatype Token = Nobody | Won(i: nat) | Flagged(i: nat) | Restored(i: nat, t: nat)

  predicate Belongs(tok: Token, i: int) {
    tok != Nobody && tok.i == i
  }

  /** The token agrees with thread `t` of session `i`. */
  predicate Agrees(i: int, t: int, th: Thread, tok: Token) {
    && (t == 0 ==> (HasTaken(th.pc) <==> tok.Won? && tok.i == i))
    && (Putting(th.pc) <==> tok.Restored? && tok.i == i && tok.t == t)
  }

  predicate HoldsAs(x: Session, i: int, tok: Token) {
    && (x.c.hasLease <==> tok.Flagged? && tok.i == i)
    && (tok.Restored? && tok.i == i ==> tok.t < |x.threads|)
    && (forall t :: 0 <= t < |x.threads| ==> Agrees(i, t, x.threads[t], tok))
  }

  predicate Exclusive(s: State, tok: Token) {
    && Shaped(s)
    && (tok != Nobody ==> tok.i < |s.sessions|)
    && (s.w.lease <==> tok != Nobody)
    && (forall i :: 0 <= i < |s.sessions| ==> HoldsAs(s.sessions[i], i, tok))
  }

  /** Where the lease goes when thread `t` of session `i` moves. */
  function TokenAfter(c: Cells, i: nat, t: nat, pc: Pc, lease: bool, tok: Token): Token {
    if pc.Turning? && pc.turn.Checked? then if lease then tok else Won(i)
    else if pc.Turning? && pc.turn.Taken? then Flagged(i)
    else if pc.Restoring? && pc.at.HaveLock? then if c.hasLease then Restored(i, t) else tok
    else if pc.Restoring? && pc.at.Release? then Nobody
    else tok
  }

  function NextToken(s: State, tok: Token, step: Step): Token
    requires Do(s, step).Some?
  {
    if step.Run? then
      var x := s.sessions[step.i];
      TokenAfter(x.c, step.i, step.t, x.threads[step.t].pc, s.w.lease, tok)
    else tok
  }

  /** The token moves only within the session that steps, and away from no other thread. */
  predicate Passes(i: int, t: int, tok: Token, tok': Token) {
    tok' == tok || (Near(i, t, tok) && Near(i, t, tok'))
  }

  predicate Near(i: int, t: int, tok: Token) {
    match tok
    case Nobody => true
    case Won(j) => j == i && t == 0
    case Flagged(j) => j == i
    case Restored(j, u) => j == i && u == t
  }

  predicate TokenKept(e: Effect, i: int, t: int, th: Thread, tok: Token, tok': Token)
    requires e.Effect?
  {
    && Agrees(i, t, th.(pc := e.pc), tok')
    && (e.c.hasLease <==> tok'.Flagged? && tok'.i == i)
    && (e.w.lease <==> tok' != Nobody)
    && Passes(i, t, tok, tok')
  }

  predicate TokenFits(c: Cells, w: World, i: int, t: int, th: Thread, tok: Token) {
    && Own(c, t, th) && Agrees(i, t, th, tok)
    && (c.hasLease <==> tok.Flagged? && tok.i == i)
    && (w.lease <==> tok != Nobody)
  }

  lemma {:induction false} TokenTurn(spec: Spec, c: Cells, w: World, i: nat, t: nat, th: Thread, yes: bool,
                                     reply: Ladder, tok: Token)
    requires TokenFits(c, w, i, t, th, tok) && th.pc.Turning?
    requires AdvanceTurn(spec, c, w, th.pc.turn, yes, reply).Effect?
    ensures TokenKept(AdvanceTurn(spec, c, w, th.pc.turn, yes, reply), i, t, th, tok,
                      TokenAfter(c, i, t, th.pc, w.lease, tok))
  {
    assert t == 0;
  }

  lemma {:induction false} TokenRestore(c: Cells, w: World, i: nat, t: nat, th: Thread, yes: bool, tok: Token)
    requires TokenFits(c, w, i, t, th, tok) && th.pc.Restoring?
    requires AdvanceRestore(c, w, t, th.role, th.pc.at, yes).Effect?
    ensures TokenKept(AdvanceRestore(c, w, t, th.role, th.pc.at, yes), i, t, th, tok,
                      TokenAfter(c, i, t, th.pc, w.lease, tok))
  {
    RestoreEffect(c, w, t, th.role, th.pc.at, yes);
  }

  lemma {:induction false} TokenSteps(spec: Spec, c: Cells, w: World, i: nat, t: nat, th: Thread, yes: bool,
                                      reply: Ladder, tok: Token)
    requires TokenFits(c, w, i, t, th, tok)
    requires Advance(spec, c, w, t, th, yes, reply).Effect?
    ensures TokenKept(Advance(spec, c, w, t, th, yes, reply), i, t, th, tok, TokenAfter(c, i, t, th.pc, w.lease, tok))
  {
    match th.pc
    case Turning(_) => TokenTurn(spec, c, w, i, t, th, yes, reply, tok);
    case Restoring(_) => TokenRestore(c, w, i, t, th, yes, tok);
    case _ =>
  }

  lemma {:induction false} ExclusiveRun(s: State, tok: Token, i: nat, t: nat, yes: bool, reply: Ladder)
    requires Exclusive(s, tok) && Do(s, Run(i, t, yes, reply)).Some?
    ensures Exclusive(Do(s, Run(i, t, yes, reply)).value, NextToken(s, tok, Run(i, t, yes, reply)))
  {
    ShapedDo(s, Run(i, t, yes, reply));
    var x := s.sessions[i];
    var e := Advance(x.spec, x.c, s.w, t, x.threads[t], yes, reply);
    var tok' := TokenAfter(x.c, i, t, x.threads[t].pc, s.w.lease, tok);
    var s' := Do(s, Run(i, t, yes, reply)).value;
    assert Shape(x) && HoldsAs(x, i, tok) && Own(x.c, t, x.threads[t]) && Agrees(i, t, x.threads[t], tok);
    TokenSteps(x.spec, x.c, s.w, i, t, x.threads[t], yes, reply, tok);
    HoldsMoved(x, i, t, e.pc, e.c, tok, tok');
    forall j | 0 <= j < |s.sessions| && j != i ensures HoldsAs(s'.sessions[j], j, tok') {
      assert HoldsAs(s.sessions[j], j, tok);
      HoldsElsewhere(s.sessions[j], i, t, j, tok, tok');
    }
  }

  lemma {:induction false} HoldsMoved(x: Session, i: nat, t: nat, pc: Pc, c: Cells, tok: Token, tok': Token)
    requires HoldsAs(x, i, tok) && t < |x.threads| && Agrees(i, t, x.threads[t].(pc := pc), tok')
    requires c.hasLease <==> tok'.Flagged? && tok'.i == i
    requires Passes(i, t, tok, tok')
    ensures HoldsAs(Moved(x, t, pc, c), i, tok')
  {
    var y := Moved(x, t, pc, c);
    forall u | 0 <= u < |y.threads| ensures Agrees(i, u, y.threads[u], tok') {
      if u < |x.threads| {
        assert Agrees(i, u, x.threads[u], tok);
      }
    }
  }

  lemma {:induction false} HoldsElsewhere(x: Session, i: int, t: int, j: int, tok: Token, tok': Token)
    requires HoldsAs(x, j, tok) && i != j && Passes(i, t, tok, tok')
    ensures HoldsAs(x, j, tok')
  {
    forall u | 0 <= u < |x.threads| ensures Agrees(j, u, x.threads[u], tok') {
      assert Agrees(j, u, x.threads[u], tok);
    }
  }

  lemma {:induction false} HoldsWorker(x: Session, i: nat, pc: Pc, c: Cells, tok: Token)
    requires HoldsAs(x, i, tok) && CallerIdle(x) && (pc.Stopping? || pc.Finished?) && c.hasLease == x.c.hasLease
    ensures HoldsAs(WithWorker(x, pc, c), i, tok)
  {
    var y := WithWorker(x, pc, c);
    forall u | 0 <= u < |y.threads| ensures Agrees(i, u, y.threads[u], tok) {
      if u < |x.threads| {
        assert Agrees(i, u, x.threads[u], tok);
      }
    }
  }

  lemma {:induction false} ExclusiveDo(s: State, tok: Token, step: Step)
    requires Exclusive(s, tok) && Do(s, step).Some?
    ensures Exclusive(Do(s, step).value, NextToken(s, tok, step))
  {
    match step
    case Run(i, t, yes, reply) => ExclusiveRun(s, tok, i, t, yes, reply);
    case _ =>
      ShapedDo(s, step);
      ExclusiveCall(s, tok, step);
  }

  lemma {:induction false} ExclusiveCall(s: State, tok: Token, step: Step)
    requires Exclusive(s, tok) && Do(s, step).Some? && !step.Run?
    ensures var s' := Do(s, step).value; forall j :: 0 <= j < |s'.sessions| ==> HoldsAs(s'.sessions[j], j, tok)
  {
    match step
    case Open(_) => assert forall j :: 0 <= j < |s.sessions| ==> HoldsAs(s.sessions[j], j, tok);
    case Latch(i) =>
      assert HoldsAs(s.sessions[i], i, tok);
      assert forall t :: 0 <= t < |s.sessions[i].threads| ==> Agrees(i, t, s.sessions[i].threads[t], tok);
    case BeginTurn(i) =>
      assert HoldsAs(s.sessions[i], i, tok) && Agrees(i, 0, s.sessions[i].threads[0], tok);
      HoldsMoved(s.sessions[i], i, 0, Turning(Checked), s.sessions[i].c, tok, tok);
    case Interrupt(i) => HoldsWorker(s.sessions[i], i, Stopping, s.sessions[i].c.(interrupted := true), tok);
    case Drop(i) => HoldsWorker(s.sessions[i], i, Finished, s.sessions[i].c.(dropped := true), tok);
  }

  /** Where the lease is after a run. */
  ghost function Holder(store: Store, steps: seq<Step>): Token
    requires Play(Init(store), steps).Some?
    decreases |steps|
  {
    if steps == [] then Nobody
    else
      var before := steps[..|steps| - 1];
      NextToken(Play(Init(store), before).value, Holder(store, before), steps[|steps| - 1])
  }

  lemma {:induction false} ExclusivePlay(store: Store, steps: seq<Step>)
    requires Play(Init(store), steps).Some?
    ensures Exclusive(Play(Init(store), steps).value, Holder(store, steps))
    decreases |steps|
  {
    if steps != [] {
      var before := steps[..|steps| - 1];
      ExclusivePlay(store, before);
      ExclusiveDo(Play(Init(store), before).value, Holder(store, before), steps[|steps| - 1]);
    }
  }

  /** The session lies between its successful compare-exchange and its release. */
  predicate Holds(x: Session) {
    && |x.threads| > 0
    && (HasTaken(x.threads[0].pc) || x.c.hasLease || exists t :: 0 <= t < |x.threads| && Putting(x.threads[t].pc))
  }

  lemma {:induction false} HoldsIsToken(x: Session, i: int, tok: Token)
    requires Shape(x) && HoldsAs(x, i, tok)
    ensures Holds(x) <==> Belongs(tok, i)
  {
    assert Agrees(i, 0, x.threads[0], tok);
    if Holds(x) && !HasTaken(x.threads[0].pc) && !x.c.hasLease {
      var t :| 0 <= t < |x.threads| && Putting(x.threads[t].pc);
      assert Agrees(i, t, x.threads[t], tok);
    }
    if tok.Restored? && tok.i == i {
      assert Agrees(i, tok.t, x.threads[tok.t], tok);
    }
  }

  /**
   Lease exclusion, in every reachable state and with no premise: the flag is
   up exactly when some session holds the lease, and no two sessions hold it.
   */
  lemma {:induction false} LeaseIsExclusive(store: Store, steps: seq<Step>)
    requires Play(Init(store), steps).Some?
    ensures var s := Play(Init(store), steps).value;
      && (s.w.lease <==> exists i :: 0 <= i < |s.sessions| && Holds(s.sessions[i]))
      && (forall i, j :: 0 <= i < |s.sessions| && 0 <= j < |s.sessions| ==>
            Holds(s.sessions[i]) && Holds(s.sessions[j]) ==> i == j)
  {
    ExclusivePlay(store, steps);
    var s, tok := Play(Init(store), steps).value, Holder(store, steps);
    forall i | 0 <= i < |s.sessions| ensures Holds(s.sessions[i]) <==> Belongs(tok, i) {
      HoldsIsToken(s.sessions[i], i, tok);
    }
    if s.w.lease {
      assert Holds(s.sessions[tok.i]);
    }
  }

  /**
   A step that lowers the lease flag is the release of the one session that
   held it: no restore ever gives back a lease another session took.
   */
  lemma {:induction false} OnlyTheHolderReleases(store: Store, steps: seq<Step>, step: Step, j: nat)
    requires Play(Init(store), steps).Some? && Do(Play(Init(store), steps).value, step).Some?
    requires var s := Play(Init(store), steps).value;
      s.w.lease && !Do(s, step).value.w.lease && j < |s.sessions| && Holds(s.sessions[j])
    ensures step.Run? && step.i == j
    ensures !Holds(Do(Play(Init(store), steps).value, step).value.sessions[j])
  {
    ExclusivePlay(store, steps);
    var s, tok := Play(Init(store), steps).value, Holder(store, steps);
    assert HoldsAs(s.sessions[j], j, tok) && Shape(s.sessions[j]);
    HoldsIsToken(s.sessions[j], j, tok);
    ExclusiveDo(s, tok, step);
    var x := s.sessions[step.i];
    assert HoldsAs(x, step.i, tok) && Shape(x);
    ReleaseIsOwn(x, step.i, step.t, s.w, step.yes, step.reply, tok);
    var s', tok' := Do(s, step).value, NextToken(s, tok, step);
    assert HoldsAs(s'.sessions[j], j, tok') && Shape(s'.sessions[j]);
    HoldsIsToken(s'.sessions[j], j, tok');
  }

  lemma {:induction false} ReleaseIsOwn(x: Session, i: nat, t: nat, w: World, yes: bool, reply: Ladder, tok: Token)
    requires Shape(x) && HoldsAs(x, i, tok) && t < |x.threads| && w.lease
    requires var e := Advance(x.spec, x.c, w, t, x.threads[t], yes, reply); e.Effect? && !e.w.lease
    ensures Belongs(tok, i)
  {
    assert Agrees(i, t, x.threads[t], tok);
  }

  /** `done` goes up at most once per turn begun: the `Done` events count the finished turns exactly. */
  lemma {:induction false} DonePerTurn(store: Store, steps: seq<Step>, i: nat)
    requires Play(Init(store), steps).Some? && i < |Play(Init(store), steps).value.sessions|
    ensures var c := Play(Init(store), steps).value.sessions[i].c;
      c.dones == c.begun - (if c.done then 0 else 1)
  {
    ExclusivePlay(store, steps);
    assert Shape(Play(Init(store), steps).value.sessions[i]);
  }

  // ---- the turn cap ----

  function Max(a: nat, b: nat): nat {
    if a < b then b else a
  }

  /** The turns begun, and the one about to begin, are at most the cap; a cap of 0 counts as 1. */
  predicate Capped(x: Session) {
    && |x.threads| > 0
    && (x.spec.cap.Some? ==>
          x.c.begun + (if Starting(x.threads[0].pc) then 1 else 0) <= Max(1, x.spec.cap.value))
  }

  lemma {:induction false} BegunByTurn(spec: Spec, c: Cells, w: World, at: TurnPc, yes: bool, reply: Ladder)
    requires AdvanceTurn(spec, c, w, at, yes, reply).Effect?
    ensures var e := AdvanceTurn(spec, c, w, at, yes, reply);
      && e.c.begun == c.begun + (if at.Marking? then 1 else 0)
      && (Starting(e.pc) ==> !at.Spawning? && !at.Marking?)
  {
  }

  lemma {:induction false} BegunByRestore(c: Cells, w: World, t: nat, role: Role, at: RestorePc, yes: bool)
    ensures var e := AdvanceRestore(c, w, t, role, at, yes); e.Effect? ==> e.c.begun == c.begun && !e.pc.Turning?
  {
  }

  lemma {:induction false} BegunByOther(c: Cells, w: World, pc: Pc)
    ensures var e := AdvanceOther(c, w, pc); e.Effect? ==> e.c.begun == c.begun && !e.pc.Turning?
  {
  }

  lemma {:induction false} BegunOnce(spec: Spec, c: Cells, w: World, t: nat, th: Thread, yes: bool, reply: Ladder)
    requires Advance(spec, c, w, t, th, yes, reply).Effect?
    ensures var e := Advance(spec, c, w, t, th, yes, reply);
      && e.c.begun == c.begun + (if th.pc == Turning(Marking) then 1 else 0)
      && (Starting(e.pc) ==> Starting(th.pc) && th.pc != Turning(Marking))
  {
    if th.pc.Turning? {
      BegunByTurn(spec, c, w, th.pc.turn, yes, reply);
    } else if th.pc.Restoring? {
      BegunByRestore(c, w, t, th.role, th.pc.at, yes);
    } else {
      BegunByOther(c, w, th.pc);
    }
  }

  lemma {:induction false} CappedRun(s: State, i: nat, t: nat, yes: bool, reply: Ladder)
    requires Do(s, Run(i, t, yes, reply)).Some? && Shape(s.sessions[i]) && Capped(s.sessions[i])
    ensures Capped(Do(s, Run(i, t, yes, reply)).value.sessions[i])
  {
    var x := s.sessions[i];
    BegunOnce(x.spec, x.c, s.w, t, x.threads[t], yes, reply);
    assert Own(x.c, t, x.threads[t]);
  }

  lemma {:induction false} CappedDo(s: State, step: Step, i: nat)
    requires Do(s, step).Some? && i < |Do(s, step).value.sessions|
    requires i < |s.sessions| ==> Shape(s.sessions[i]) && Capped(s.sessions[i])
    ensures Capped(Do(s, step).value.sessions[i])
  {
    if step.Run? && step.i == i && i < |s.sessions| {
      CappedRun(s, i, step.t, step.yes, step.reply);
    }
  }

  lemma {:induction false} CappedPlay(store: Store, steps: seq<Step>, i: nat)
    requires Play(Init(store), steps).Some? && i < |Play(Init(store), steps).value.sessions|
    ensures Capped(Play(Init(store), steps).value.sessions[i])
    decreases |steps|
  {
    if steps != [] {
      var before := steps[..|steps| - 1];
      var s := Play(Init(store), before).value;
      ExclusivePlay(store, before);
      if i < |s.sessions| {
        CappedPlay(store, before, i);
        assert Shape(s.sessions[i]);
      }
      CappedDo(s, steps[|steps| - 1], i);
    }
  }

  /** No session ever begins more turns than its cap; a cap of 0 counts as 1. */
  lemma {:induction false} TurnsAreCapped(store: Store, steps: seq<Step>, i: nat)
    requires Play(Init(store), steps).Some? && i < |Play(Init(store), steps).value.sessions|
    ensures var x := Play(Init(store), steps).value.sessions[i];
      x.spec.cap.Some? ==> x.c.begun <= x.spec.cap.value || x.c.begun <= 1
  {
    CappedPlay(store, steps, i);
  }
}
