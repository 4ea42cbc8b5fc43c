/**
 Whenever the lease is free the CLI-wide store is the one the run began with.

 The premises are on the environment and on when a turn takes the lease;
 `HonestStep` states all of them.
 */
module LeaseRestore {
  import opened Wrappers
  import opened Configuration
  import opened Lease
  import opened LeaseExclusion
  import opened LeaseOrder

  /** The thread has still to look at the session's lease flag. */
  predicate WillSwap(pc: Pc) {
    pc.Waiting? || pc.Polling? || (pc.Restoring? && (pc.at.WantLock? || pc.at.HaveLock?))
  }

  /** Some thread other than the caller has still to run its restore. */
  predicate Late(x: Session) {
    exists t :: 0 < t < |x.threads| && WillSwap(x.threads[t].pc)
  }

  /** Thread `t` of session `i` is about to win the lease. */
  predicate Takes(s: State, step: Step) {
    && step.Run? && step.i < |s.sessions| && step.t < |s.sessions[step.i].threads|
    && At(s.sessions[step.i].threads[step.t].pc, Checked) && !s.w.lease
  }

  predicate GoodReply(s: State, step: Step) {
    && step.Run? && step.i < |s.sessions| && step.t < |s.sessions[step.i].threads| && step.yes
    && var pc := s.sessions[step.i].threads[step.t].pc; pc.Turning? && pc.turn.Replying?
  }

  /**
   Sessions are opened while the lease is free, every ladder states the
   values in effect, and a turn takes the lease only when no thread of its
   session has a restore still to run.
   */
  predicate HonestStep(s: State, step: Step) {
    && (step.Open? ==> !s.w.lease && Truthful(step.spec.opening, s.w.store))
    && (GoodReply(s, step) ==> Truthful(step.reply, s.w.store))
    && (Takes(s, step) ==> !Late(s.sessions[step.i]))
  }

  ghost predicate HonestRun(s: State, steps: seq<Step>)
    decreases |steps|
  {
    steps != [] ==>
      var before := steps[..|steps| - 1];
      HonestRun(s, before) && (Play(s, before).Some? ==> HonestStep(Play(s, before).value, steps[|steps| - 1]))
  }

  /** The caller has the lease and may still touch the store. */
  predicate Engaged(pc: Pc) {
    pc.Turning? && !pc.turn.Checked? && !pc.turn.Spawning?
  }

  predicate Undisturbed(x: Session, i: int, tok: Token)
    requires |x.threads| > 0
  {
    Engaged(x.threads[0].pc) ==>
      && !Late(x)
      && (!HasTaken(x.threads[0].pc) ==> tok.Flagged? && tok.i == i)
  }

  /** The keys that may stay changed: those of lost restore writes and of writes that were not recorded. */
  function OffKeys(w: World): set<Key> {
    w.lost + w.stray
  }

  predicate GoodCaller(pc: Pc, spec: Spec, debt: Debt, init: Store, off: set<Key>) {
    pc.Turning? ==>
      match pc.turn
      case Configure(stage, ladder) => Usable(ladder, init, debt, off) && (stage.Model? ==> ladder == spec.opening)
      case Landing(_, ladder, id, value) =>
        Usable(ladder, init, debt, off) && Accounted(spec.sel, spec.wanted, spec.opening, init, id, value, debt)
      case Replying(_, ladder) => Usable(ladder, init, debt, off)
      case _ => true
  }

  /** What the restoring thread still owes. */
  ghost predicate GoodRestore(pc: Pc, store: Store, init: Store, debt: Debt, off: set<Key>) {
    pc.Restoring? ==>
      match pc.at
      case Take => Owes(store, init, debt, off)
      case PutBack(owed) => Owes(store, init, owed, off) && debt == []
      case Release => Alike(store, init, off) && debt == []
      case _ => true
  }

  ghost predicate Good(x: Session, i: int, tok: Token, store: Store, init: Store, off: set<Key>) {
    && |x.threads| > 0
    && Usable(x.spec.opening, init, [], off)
    && GoodCaller(x.threads[0].pc, x.spec, x.c.overwritten, init, off)
    && (!Belongs(tok, i) || tok.Won? ==> x.c.overwritten == [])
    && (tok.Won? && tok.i == i ==> Alike(store, init, off))
    && (tok.Flagged? && tok.i == i ==> Owes(store, init, x.c.overwritten, off))
    && (tok.Restored? && tok.i == i && tok.t < |x.threads| ==>
          GoodRestore(x.threads[tok.t].pc, store, init, x.c.overwritten, off))
  }

  /** The step of the caller, seen through the values it works on. */
  lemma {:induction false} TurnKeepsDebt(spec: Spec, c: Cells, w: World, at: TurnPc, yes: bool, reply: Ladder,
                                         init: Store, off: set<Key>)
    requires Usable(spec.opening, init, [], off)
    requires GoodCaller(Turning(at), spec, c.overwritten, init, off)
    requires Owes(w.store, init, c.overwritten, off) && (at.Taken? ==> c.overwritten == [])
    requires at.Replying? && yes ==> Truthful(reply, w.store)
    requires var e := AdvanceTurn(spec, c, w, at, yes, reply); e.Effect? && OffKeys(e.w) <= off
    ensures var e := AdvanceTurn(spec, c, w, at, yes, reply);
      GoodCaller(e.pc, spec, e.c.overwritten, init, off) && Owes(e.w.store, init, e.c.overwritten, off)
  {
    match at
    case Configure(stage, ladder) =>
      var plan := PlanStage(spec.sel, spec.wanted, stage, ladder);
      if plan.Write? {
        RecordCovers(w.store, init, c.overwritten, ladder, plan.id, off);
        PlanIsAccounted(spec.sel, spec.wanted, stage, ladder, spec.opening, w.store, init, c.overwritten, off);
      }
    case Landing(_, ladder, id, value) =>
      if yes {
        OwesLanded(c, w, id, value, init, off);
      }
    case Replying(stage, ladder) =>
      if yes {
        LadderUsable(reply, w.store, init, c.overwritten, off);
      }
    case _ =>
  }

  /** A write that was not recorded puts its key off, if it changes anything. */
  lemma {:induction false} OwesLanded(c: Cells, w: World, id: Key, value: Value, init: Store, off: set<Key>)
    requires Owes(w.store, init, c.overwritten, off) && OffKeys(Landed(c, w, id, value)) <= off
    ensures Owes(Landed(c, w, id, value).store, init, c.overwritten, off)
  {
    if Owed(c.overwritten, id) || id in off {
      OwesWrite(w.store, init, c.overwritten, id, value, off);
    } else {
      assert id in Landed(c, w, id, value).stray || w.store[id := value] == w.store;
    }
  }

  /** A caller that is not engaged with the lease leaves store and debt alone. */
  lemma {:induction false} IdleTurnTouchesNothing(spec: Spec, c: Cells, w: World, at: TurnPc, yes: bool, reply: Ladder)
    requires at.Checked? || at.Spawning?
    ensures var e := AdvanceTurn(spec, c, w, at, yes, reply);
      && e.Effect? && e.w.store == w.store && OffKeys(e.w) == OffKeys(w) && e.c == c
      && (e.pc.Idle? || e.pc == Turning(Taken))
  {
  }

  lemma {:induction false} TurnKeepsLoss(spec: Spec, c: Cells, w: World, at: TurnPc, yes: bool, reply: Ladder)
    requires AdvanceTurn(spec, c, w, at, yes, reply).Effect?
    ensures OffKeys(w) <= OffKeys(AdvanceTurn(spec, c, w, at, yes, reply).w)
  {
  }

  lemma {:induction false} RestoreKeepsDebt(c: Cells, w: World, t: nat, role: Role, at: RestorePc, yes: bool,
                                            init: Store, off: set<Key>)
    requires GoodRestore(Restoring(at), w.store, init, c.overwritten, off) && (at.Take? || at.PutBack? || at.Release?)
    requires var e := AdvanceRestore(c, w, t, role, at, yes); e.Effect? && OffKeys(e.w) <= off
    ensures var e := AdvanceRestore(c, w, t, role, at, yes);
      && GoodRestore(e.pc, e.w.store, init, e.c.overwritten, off) && e.c.overwritten == []
      && (at.Release? ==> Alike(e.w.store, init, off))
  {
    match at
    case Take => OwesRestoreWrites(w.store, init, c.overwritten, off);
    case PutBack(owed) =>
      if owed != [] {
        OwesPut(w.store, init, owed, off);
      } else {
        assert forall k :: !Owed(owed, k);
      }
    case Release =>
  }

  /** The lock, the swap and the unlock leave store and debt alone. */
  lemma {:induction false} LockingTouchesNothing(c: Cells, w: World, t: nat, role: Role, at: RestorePc, yes: bool)
    requires at.WantLock? || at.HaveLock? || at.Unlock?
    requires AdvanceRestore(c, w, t, role, at, yes).Effect?
    ensures var e := AdvanceRestore(c, w, t, role, at, yes);
      e.w == w && e.c.overwritten == c.overwritten && !e.pc.Turning?
      && (e.pc.Restoring? ==> e.pc.at.HaveLock? || e.pc.at.Take? || e.pc.at.Unlock?)
  {
  }

  /** A thread comes to owe a restore only from a failed turn or, with `done` false, from the events loop. */
  lemma {:induction false} ComesToSwap(spec: Spec, c: Cells, w: World, t: nat, th: Thread, yes: bool, reply: Ladder)
    requires !th.pc.Turning? && !WillSwap(th.pc)
    requires Advance(spec, c, w, t, th, yes, reply).Effect?
    ensures var e := Advance(spec, c, w, t, th, yes, reply);
      WillSwap(e.pc) ==> th.pc.Listening? && !c.done
  {
  }

  lemma {:induction false} EngagedSteps(spec: Spec, c: Cells, w: World, at: TurnPc, yes: bool, reply: Ladder,
                                        i: nat, tok: Token)
    requires AdvanceTurn(spec, c, w, at, yes, reply).Effect?
    ensures var e, tok' := AdvanceTurn(spec, c, w, at, yes, reply), TokenAfter(c, i, 0, Turning(at), w.lease, tok);
      Engaged(e.pc) ==>
        && (at.Checked? ==> !w.lease && HasTaken(e.pc))
        && (!at.Checked? ==> !HasTaken(e.pc) && Engaged(Turning(at)))
        && (at.Taken? ==> tok' == Flagged(i))
        && (!at.Checked? && !at.Taken? ==> tok' == tok)
  {
  }

  lemma {:induction false} UndisturbedCaller(x: Session, i: nat, w: World, yes: bool, reply: Ladder, tok: Token)
    requires Shape(x) && Undisturbed(x, i, tok) && x.threads[0].pc.Turning?
    requires x.threads[0].pc.turn.Checked? && !w.lease ==> !Late(x)
    requires AdvanceTurn(x.spec, x.c, w, x.threads[0].pc.turn, yes, reply).Effect?
    ensures var e := AdvanceTurn(x.spec, x.c, w, x.threads[0].pc.turn, yes, reply);
      Undisturbed(Moved(x, 0, e.pc, e.c), i, TokenAfter(x.c, i, 0, x.threads[0].pc, w.lease, tok))
  {
    var at := x.threads[0].pc.turn;
    var e := AdvanceTurn(x.spec, x.c, w, at, yes, reply);
    var y := Moved(x, 0, e.pc, e.c);
    EngagedSteps(x.spec, x.c, w, at, yes, reply, i, tok);
    if Engaged(e.pc) {
      assert !Late(x);
      assert forall u :: 0 < u < |y.threads| ==> y.threads[u] == x.threads[u];
    }
  }

  lemma {:induction false} UndisturbedPeer(x: Session, i: nat, w: World, t: nat, yes: bool, reply: Ladder, tok: Token)
    requires Shape(x) && HoldsAs(x, i, tok) && Undisturbed(x, i, tok) && 0 < t < |x.threads|
    requires w.lease <==> tok != Nobody
    requires Advance(x.spec, x.c, w, t, x.threads[t], yes, reply).Effect?
    ensures var e := Advance(x.spec, x.c, w, t, x.threads[t], yes, reply);
      Undisturbed(Moved(x, t, e.pc, e.c), i, TokenAfter(x.c, i, t, x.threads[t].pc, w.lease, tok))
  {
    var th := x.threads[t];
    var e := Advance(x.spec, x.c, w, t, th, yes, reply);
    var y := Moved(x, t, e.pc, e.c);
    assert Own(x.c, t, th) && Own(x.c, 0, x.threads[0]) && Agrees(i, t, th, tok) && Agrees(i, 0, x.threads[0], tok);
    if Engaged(x.threads[0].pc) {
      assert !WillSwap(th.pc);
      ComesToSwap(x.spec, x.c, w, t, th, yes, reply);
      assert forall u :: 0 < u < |y.threads| && u != t ==> y.threads[u] == x.threads[u];
    }
  }

  /** The world after a step, as seen by the session that stepped. */
  ghost predicate StillGood(x: Session, i: int, tok: Token, w: World, init: Store, off: set<Key>) {
    OffKeys(w) <= off ==> Good(x, i, tok, w.store, init, off) && (tok == Nobody ==> Alike(w.store, init, off))
  }

  lemma {:induction false} GoodTurnStep(x: Session, i: nat, w: World, yes: bool, reply: Ladder, tok: Token,
                                        init: Store, off: set<Key>)
    requires Shape(x) && HoldsAs(x, i, tok) && Undisturbed(x, i, tok) && x.threads[0].pc.Turning?
    requires StillGood(x, i, tok, w, init, off) && (w.lease <==> tok != Nobody)
    requires x.threads[0].pc.turn.Replying? && yes ==> Truthful(reply, w.store)
    requires AdvanceTurn(x.spec, x.c, w, x.threads[0].pc.turn, yes, reply).Effect?
    ensures var e := AdvanceTurn(x.spec, x.c, w, x.threads[0].pc.turn, yes, reply);
      StillGood(Moved(x, 0, e.pc, e.c), i, TokenAfter(x.c, i, 0, x.threads[0].pc, w.lease, tok), e.w, init, off)
  {
    var at := x.threads[0].pc.turn;
    var e, tok' := AdvanceTurn(x.spec, x.c, w, at, yes, reply), TokenAfter(x.c, i, 0, x.threads[0].pc, w.lease, tok);
    var y := Moved(x, 0, e.pc, e.c);
    TurnKeepsLoss(x.spec, x.c, w, at, yes, reply);
    assert Agrees(i, 0, x.threads[0], tok) && Own(x.c, 0, x.threads[0]);
    if OffKeys(e.w) <= off {
      if at.Checked? || at.Spawning? {
        IdleTurnTouchesNothing(x.spec, x.c, w, at, yes, reply);
        if tok.Restored? && tok.i == i {
          assert Agrees(i, tok.t, x.threads[tok.t], tok);
          assert y.threads[tok.t] == x.threads[tok.t];
        }
      } else {
        TurnKeepsDebt(x.spec, x.c, w, at, yes, reply, init, off);
        assert tok' == Flagged(i);
      }
    }
  }

  lemma {:induction false} GoodRestoreStep(x: Session, i: nat, w: World, t: nat, yes: bool, tok: Token, init: Store,
                                           off: set<Key>)
    requires Shape(x) && HoldsAs(x, i, tok) && Undisturbed(x, i, tok) && t < |x.threads| && x.threads[t].pc.Restoring?
    requires StillGood(x, i, tok, w, init, off) && (w.lease <==> tok != Nobody)
    requires AdvanceRestore(x.c, w, t, x.threads[t].role, x.threads[t].pc.at, yes).Effect?
    ensures var e := AdvanceRestore(x.c, w, t, x.threads[t].role, x.threads[t].pc.at, yes);
      StillGood(Moved(x, t, e.pc, e.c), i, TokenAfter(x.c, i, t, x.threads[t].pc, w.lease, tok), e.w, init, off)
  {
    var at := x.threads[t].pc.at;
    var e, tok' := AdvanceRestore(x.c, w, t, x.threads[t].role, at, yes),
        TokenAfter(x.c, i, t, x.threads[t].pc, w.lease, tok);
    var y := Moved(x, t, e.pc, e.c);
    assert Agrees(i, t, x.threads[t], tok) && Agrees(i, 0, x.threads[0], tok);
    if OffKeys(e.w) <= off {
      if at.Take? || at.PutBack? || at.Release? {
        RestoreKeepsDebt(x.c, w, t, x.threads[t].role, at, yes, init, off);
        assert !Engaged(x.threads[0].pc);
      } else {
        LockingTouchesNothing(x.c, w, t, x.threads[t].role, at, yes);
        if tok.Restored? && tok.i == i {
          assert Agrees(i, tok.t, x.threads[tok.t], tok);
        }
      }
    }
  }

  lemma {:induction false} GoodOtherStep(x: Session, i: nat, w: World, t: nat, tok: Token, init: Store, off: set<Key>)
    requires Shape(x) && HoldsAs(x, i, tok) && t < |x.threads| && !x.threads[t].pc.Restoring?
      && !x.threads[t].pc.Turning?
    requires StillGood(x, i, tok, w, init, off)
    requires AdvanceOther(x.c, w, x.threads[t].pc).Effect?
    ensures var e := AdvanceOther(x.c, w, x.threads[t].pc); StillGood(Moved(x, t, e.pc, e.c), i, tok, e.w, init, off)
  {
    var e := AdvanceOther(x.c, w, x.threads[t].pc);
    assert e.w == w && e.c.overwritten == x.c.overwritten && !e.pc.Turning?;
    assert Agrees(i, t, x.threads[t], tok) && Agrees(i, 0, x.threads[0], tok);
    if tok.Restored? && tok.i == i {
      assert Agrees(i, tok.t, x.threads[tok.t], tok);
      assert Moved(x, t, e.pc, e.c).threads[tok.t] == x.threads[tok.t];
    }
  }

  /** Everything the restore theorem carries from state to state. */
  ghost predicate Restorable(s: State, tok: Token, init: Store, off: set<Key>) {
    && (forall i :: 0 <= i < |s.sessions| ==> |s.sessions[i].threads| > 0 && Undisturbed(s.sessions[i], i, tok))
    && (forall i :: 0 <= i < |s.sessions| ==> StillGood(s.sessions[i], i, tok, s.w, init, off))
    && (OffKeys(s.w) <= off && tok == Nobody ==> Alike(s.w.store, init, off))
  }

  lemma {:induction false} GoodElsewhere(x: Session, i: int, t: int, j: int, tok: Token, tok': Token, w: World,
                                         w': World, init: Store, off: set<Key>)
    requires StillGood(x, j, tok, w, init, off) && i != j && Passes(i, t, tok, tok') && OffKeys(w) <= OffKeys(w')
    requires tok' == tok && Belongs(tok, j) ==> w'.store == w.store
    requires tok' == Nobody && OffKeys(w') <= off ==> Alike(w'.store, init, off)
    ensures StillGood(x, j, tok', w', init, off)
  {
  }

  /** A session touches the store only while the lease is its own. */
  lemma {:induction false} StoreIsTheHolders(x: Session, i: nat, w: World, t: nat, yes: bool, reply: Ladder, tok: Token)
    requires Shape(x) && HoldsAs(x, i, tok) && Undisturbed(x, i, tok) && t < |x.threads|
    requires Advance(x.spec, x.c, w, t, x.threads[t], yes, reply).Effect?
    ensures var e := Advance(x.spec, x.c, w, t, x.threads[t], yes, reply);
      OffKeys(w) <= OffKeys(e.w) && (e.w.store != w.store ==> Belongs(tok, i))
  {
    assert Agrees(i, t, x.threads[t], tok) && Own(x.c, t, x.threads[t]);
    match x.threads[t].pc
    case Turning(at) =>
      TurnKeepsLoss(x.spec, x.c, w, at, yes, reply);
    case Restoring(at) =>
    case _ =>
  }

  lemma {:induction false} SteppingSession(x: Session, i: nat, w: World, t: nat, yes: bool, reply: Ladder,
                                           tok: Token, init: Store, off: set<Key>)
    requires Shape(x) && HoldsAs(x, i, tok) && Undisturbed(x, i, tok) && t < |x.threads|
    requires StillGood(x, i, tok, w, init, off) && (w.lease <==> tok != Nobody)
    requires At(x.threads[t].pc, Checked) && !w.lease ==> !Late(x)
    requires x.threads[t].pc.Turning? && x.threads[t].pc.turn.Replying? && yes ==> Truthful(reply, w.store)
    requires Advance(x.spec, x.c, w, t, x.threads[t], yes, reply).Effect?
    ensures var e, tok' := Advance(x.spec, x.c, w, t, x.threads[t], yes, reply),
      TokenAfter(x.c, i, t, x.threads[t].pc, w.lease, tok);
      Undisturbed(Moved(x, t, e.pc, e.c), i, tok') && StillGood(Moved(x, t, e.pc, e.c), i, tok', e.w, init, off)
  {
    assert Own(x.c, t, x.threads[t]);
    match x.threads[t].pc
    case Turning(at) =>
      assert t == 0;
      UndisturbedCaller(x, i, w, yes, reply, tok);
      GoodTurnStep(x, i, w, yes, reply, tok, init, off);
    case Restoring(at) =>
      if t > 0 { UndisturbedPeer(x, i, w, t, yes, reply, tok); }
      GoodRestoreStep(x, i, w, t, yes, tok, init, off);
    case _ =>
      if t > 0 { UndisturbedPeer(x, i, w, t, yes, reply, tok); }
      GoodOtherStep(x, i, w, t, tok, init, off);
  }

  lemma {:induction false} Elsewhere(s: State, tok: Token, tok': Token, i: nat, t: nat, w: World, init: Store,
                                     off: set<Key>)
    requires Exclusive(s, tok) && Restorable(s, tok, init, off) && Passes(i, t, tok, tok') && OffKeys(s.w) <= OffKeys(w)
    requires w.store != s.w.store ==> Belongs(tok, i)
    requires tok' == Nobody && OffKeys(w) <= off ==> Alike(w.store, init, off)
    ensures forall j :: 0 <= j < |s.sessions| && j != i ==>
      Undisturbed(s.sessions[j], j, tok') && StillGood(s.sessions[j], j, tok', w, init, off)
  {
    forall j | 0 <= j < |s.sessions| && j != i
      ensures Undisturbed(s.sessions[j], j, tok') && StillGood(s.sessions[j], j, tok', w, init, off)
    {
      assert Undisturbed(s.sessions[j], j, tok) && StillGood(s.sessions[j], j, tok, s.w, init, off)
        && HoldsAs(s.sessions[j], j, tok);
      GoodElsewhere(s.sessions[j], i, t, j, tok, tok', s.w, w, init, off);
    }
  }

  lemma {:induction false} RestorableRun(s: State, tok: Token, i: nat, t: nat, yes: bool, reply: Ladder, init: Store,
                                         off: set<Key>)
    requires Exclusive(s, tok) && Restorable(s, tok, init, off)
    requires Do(s, Run(i, t, yes, reply)).Some? && HonestStep(s, Run(i, t, yes, reply))
    ensures Restorable(Do(s, Run(i, t, yes, reply)).value, NextToken(s, tok, Run(i, t, yes, reply)), init, off)
  {
    var x, step := s.sessions[i], Run(i, t, yes, reply);
    var e, tok' := Advance(x.spec, x.c, s.w, t, x.threads[t], yes, reply), NextToken(s, tok, step);
    assert Shape(x) && HoldsAs(x, i, tok) && Own(x.c, t, x.threads[t]) && Agrees(i, t, x.threads[t], tok);
    assert Undisturbed(x, i, tok) && StillGood(x, i, tok, s.w, init, off);
    SteppingSession(x, i, s.w, t, yes, reply, tok, init, off);
    TokenSteps(x.spec, x.c, s.w, i, t, x.threads[t], yes, reply, tok);
    StoreIsTheHolders(x, i, s.w, t, yes, reply, tok);
    Elsewhere(s, tok, tok', i, t, e.w, init, off);
    var s' := Do(s, step).value;
    assert s'.sessions[i] == Moved(x, t, e.pc, e.c);
    assert forall j :: 0 <= j < |s.sessions| && j != i ==> s'.sessions[j] == s.sessions[j];
  }

  lemma {:induction false} RestorableWorker(x: Session, i: nat, pc: Pc, c: Cells, tok: Token, w: World, init: Store,
                                            off: set<Key>)
    requires Shape(x) && HoldsAs(x, i, tok) && StillGood(x, i, tok, w, init, off) && CallerIdle(x)
    requires (pc.Stopping? || pc.Finished?) && c.overwritten == x.c.overwritten
    ensures Undisturbed(WithWorker(x, pc, c), i, tok) && StillGood(WithWorker(x, pc, c), i, tok, w, init, off)
  {
    if tok.Restored? && tok.i == i {
      assert Agrees(i, tok.t, x.threads[tok.t], tok);
      assert WithWorker(x, pc, c).threads[tok.t] == x.threads[tok.t];
    }
  }

  lemma {:induction false} RestorableBegin(x: Session, i: nat, tok: Token, w: World, init: Store, off: set<Key>)
    requires Shape(x) && HoldsAs(x, i, tok) && StillGood(x, i, tok, w, init, off) && CallerIdle(x)
    ensures Undisturbed(Moved(x, 0, Turning(Checked), x.c), i, tok)
    ensures StillGood(Moved(x, 0, Turning(Checked), x.c), i, tok, w, init, off)
  {
    if tok.Restored? && tok.i == i {
      assert Agrees(i, tok.t, x.threads[tok.t], tok);
      assert Moved(x, 0, Turning(Checked), x.c).threads[tok.t] == x.threads[tok.t];
    }
  }

  lemma {:induction false} RestorableCall(s: State, tok: Token, step: Step, init: Store, off: set<Key>)
    requires Exclusive(s, tok) && Restorable(s, tok, init, off) && !step.Run? && !step.Open? && Do(s, step).Some?
    ensures Restorable(Do(s, step).value, tok, init, off)
  {
    var x, s' := s.sessions[step.i], Do(s, step).value;
    assert Shape(x) && HoldsAs(x, step.i, tok) && Undisturbed(x, step.i, tok)
      && StillGood(x, step.i, tok, s.w, init, off);
    assert forall j :: 0 <= j < |s.sessions| && j != step.i ==> s'.sessions[j] == s.sessions[j];
    match step
    case Latch(i) =>
    case BeginTurn(i) => RestorableBegin(x, i, tok, s.w, init, off);
    case Interrupt(i) => RestorableWorker(x, i, Stopping, x.c.(interrupted := true), tok, s.w, init, off);
    case Drop(i) => RestorableWorker(x, i, Finished, x.c.(dropped := true), tok, s.w, init, off);
  }

  lemma {:induction false} RestorableOpen(s: State, tok: Token, spec: Spec, init: Store, off: set<Key>)
    requires Exclusive(s, tok) && Restorable(s, tok, init, off) && HonestStep(s, Open(spec))
    ensures Restorable(Do(s, Open(spec)).value, tok, init, off)
  {
    assert tok == Nobody;
    if OffKeys(s.w) <= off {
      assert Owes(s.w.store, init, [], off);
      LadderUsable(spec.opening, s.w.store, init, [], off);
    }
    assert StillGood(Opened(spec), |s.sessions|, tok, s.w, init, off);
  }

  lemma {:induction false} RestorableDo(s: State, tok: Token, step: Step, init: Store, off: set<Key>)
    requires Exclusive(s, tok) && Restorable(s, tok, init, off) && Do(s, step).Some? && HonestStep(s, step)
    ensures Restorable(Do(s, step).value, NextToken(s, tok, step), init, off)
  {
    match step
    case Open(spec) => RestorableOpen(s, tok, spec, init, off);
    case Run(i, t, yes, reply) => RestorableRun(s, tok, i, t, yes, reply, init, off);
    case _ => RestorableCall(s, tok, step, init, off);
  }

  lemma {:induction false} RestorablePlay(store: Store, steps: seq<Step>, off: set<Key>)
    requires Play(Init(store), steps).Some? && HonestRun(Init(store), steps)
    ensures Restorable(Play(Init(store), steps).value, Holder(store, steps), store, off)
    decreases |steps|
  {
    if steps != [] {
      var before := steps[..|steps| - 1];
      RestorablePlay(store, before, off);
      ExclusivePlay(store, before);
      RestorableDo(Play(Init(store), before).value, Holder(store, before), steps[|steps| - 1], store, off);
    }
  }

  /**
   The restore theorem. For any number of sessions and any interleaving of
   turns, faults, interrupts and drops under the premises, whenever the lease
   is free every key is back at its initial value, except those of lost
   restore writes and of unrecorded writes that landed. Configuration that
   fails part-way is included: a write may be refused, or land without a
   reply.
   */
  lemma {:induction false} RestoredKeyByKey(store: Store, steps: seq<Step>)
    requires Play(Init(store), steps).Some? && HonestRun(Init(store), steps)
    ensures var w := Play(Init(store), steps).value.w; !w.lease ==> Alike(w.store, store, OffKeys(w))
  {
    RestorablePlay(store, steps, OffKeys(Play(Init(store), steps).value.w));
    ExclusivePlay(store, steps);
  }

  // ---- which writes are not recorded ----

  /** Some session would write a model that no ladder of its lists and that is not the one in effect. */
  predicate AnyUnlisted(s: State, init: Store) {
    exists i :: 0 <= i < |s.sessions|
      && Unlisted(s.sessions[i].spec.sel, s.sessions[i].spec.wanted, s.sessions[i].spec.opening, init)
  }

  /** Sessions stay, and so does what was agreed when they were opened. */
  lemma {:induction false} SpecsKept(s: State, step: Step)
    requires Do(s, step).Some?
    ensures var s' := Do(s, step).value;
      && |s.sessions| <= |s'.sessions|
      && (forall i :: 0 <= i < |s.sessions| ==> s'.sessions[i].spec == s.sessions[i].spec)
      && (step.Open? ==> |s.sessions| < |s'.sessions| && s'.sessions[|s.sessions|].spec == step.spec)
  {
  }

  lemma {:induction false} UnlistedKept(s: State, step: Step, init: Store)
    requires Do(s, step).Some? && AnyUnlisted(s, init)
    ensures AnyUnlisted(Do(s, step).value, init)
  {
    SpecsKept(s, step);
    var i :| 0 <= i < |s.sessions|
      && Unlisted(s.sessions[i].spec.sel, s.sessions[i].spec.wanted, s.sessions[i].spec.opening, init);
    assert Do(s, step).value.sessions[i].spec == s.sessions[i].spec;
  }

  /** Only a landing configuration write can stray. */
  lemma {:induction false} WhatStrays(x: Session, w: World, t: nat, yes: bool, reply: Ladder)
    requires t < |x.threads| && Advance(x.spec, x.c, w, t, x.threads[t], yes, reply).Effect?
    ensures var e, pc := Advance(x.spec, x.c, w, t, x.threads[t], yes, reply), x.threads[t].pc;
      && w.lost <= e.w.lost
      && (e.w.stray != w.stray ==>
            && pc.Turning? && pc.turn.Landing? && e.w.stray == w.stray + {pc.turn.id}
            && !Owed(x.c.overwritten, pc.turn.id)
            && !(pc.turn.id in w.store && w.store[pc.turn.id] == pc.turn.value))
  {
    match x.threads[t].pc
    case Turning(at) =>
    case _ =>
  }

  /** A stray write is of an unlisted model, or of the model whose restore was lost. */
  lemma {:induction false} StrayRun(s: State, tok: Token, i: nat, t: nat, yes: bool, reply: Ladder, init: Store)
    requires Exclusive(s, tok) && Restorable(s, tok, init, OffKeys(s.w)) && s.w.stray <= s.w.lost
    requires Do(s, Run(i, t, yes, reply)).Some? && !AnyUnlisted(s, init)
    ensures var w := Do(s, Run(i, t, yes, reply)).value.w; w.stray <= w.lost
  {
    var x := s.sessions[i];
    WhatStrays(x, s.w, t, yes, reply);
    assert Shape(x) && HoldsAs(x, i, tok) && Own(x.c, t, x.threads[t]) && Agrees(i, t, x.threads[t], tok);
    assert Undisturbed(x, i, tok) && StillGood(x, i, tok, s.w, init, OffKeys(s.w));
    var pc := x.threads[t].pc;
    if pc.Turning? && pc.turn.Landing? {
      assert t == 0 && Owes(s.w.store, init, x.c.overwritten, OffKeys(s.w));
      var id := pc.turn.id;
      assert id in OffKeys(s.w) || Same(s.w.store, init, id) || Owed(x.c.overwritten, id);
    }
  }

  lemma {:induction false} StrayDo(s: State, tok: Token, step: Step, init: Store)
    requires Exclusive(s, tok) && Restorable(s, tok, init, OffKeys(s.w)) && s.w.stray <= s.w.lost
    requires Do(s, step).Some? && !AnyUnlisted(s, init)
    ensures var w := Do(s, step).value.w; w.stray <= w.lost
  {
    if step.Run? {
      StrayRun(s, tok, step.i, step.t, step.yes, step.reply, init);
    }
  }

  /** With every requested model listed or in effect, nothing strays but where a restore write was lost. */
  lemma {:induction false} StrayIsUnlisted(store: Store, steps: seq<Step>)
    requires Play(Init(store), steps).Some? && HonestRun(Init(store), steps)
    ensures var s := Play(Init(store), steps).value; AnyUnlisted(s, store) || s.w.stray <= s.w.lost
    decreases |steps|
  {
    if steps != [] {
      var before, step := steps[..|steps| - 1], steps[|steps| - 1];
      var s := Play(Init(store), before).value;
      StrayIsUnlisted(store, before);
      if AnyUnlisted(s, store) {
        UnlistedKept(s, step, store);
      } else {
        ExclusivePlay(store, before);
        RestorablePlay(store, before, OffKeys(s.w));
        StrayDo(s, Holder(store, before), step, store);
      }
    }
  }

  /** So with every restore write landed and every requested model listed, a free lease means the initial store. */
  lemma {:induction false} RestoredWheneverFree(store: Store, steps: seq<Step>)
    requires Play(Init(store), steps).Some? && HonestRun(Init(store), steps)
    ensures var s := Play(Init(store), steps).value;
      !s.w.lease && s.w.lost == {} && !AnyUnlisted(s, store) ==> s.w.store == store
  {
    RestoredKeyByKey(store, steps);
    StrayIsUnlisted(store, steps);
    var s := Play(Init(store), steps).value;
    if !s.w.lease && s.w.lost == {} && !AnyUnlisted(s, store) {
      assert OffKeys(s.w) == {};
      AlikeAll(s.w.store, store);
    }
  }

  // ---- callers that look at the latches first ----

  /** What a caller can check: a turn is begun only while neither `interrupt` nor the ingress latch has come. */
  predicate CheckedStep(s: State, step: Step) {
    && (step.Open? ==> !s.w.lease && Truthful(step.spec.opening, s.w.store))
    && (GoodReply(s, step) ==> Truthful(step.reply, s.w.store))
    && (step.BeginTurn? && step.i < |s.sessions| ==>
          !s.sessions[step.i].c.interrupted && !s.sessions[step.i].c.ingressFailed)
  }

  ghost predicate CheckedRun(s: State, steps: seq<Step>)
    decreases |steps|
  {
    steps != [] ==>
      var before := steps[..|steps| - 1];
      CheckedRun(s, before) && (Play(s, before).Some? ==> CheckedStep(Play(s, before).value, steps[|steps| - 1]))
  }

  /** A caller on its way to the lease finds every other thread of its session done with its restore. */
  predicate Poised(x: Session) {
    |x.threads| > 0 && At(x.threads[0].pc, Checked) ==> !Late(x)
  }

  /** With neither latch up and nothing running, no thread of the session has a restore still to run. */
  lemma {:induction false} ClearIsNotLate(x: Session)
    requires Shape(x) && Orderly(x) && MayBegin(x) && !x.c.interrupted && !x.c.ingressFailed
    ensures !Late(x)
  {
    forall t | 0 < t < |x.threads| ensures !WillSwap(x.threads[t].pc) {
      assert Own(x.c, t, x.threads[t]) && Own(x.c, 0, x.threads[0]) && OrderlyAt(x.c, x.threads[0].pc, t, x.threads[t]);
    }
  }

  /** Once poised, the session stays so until its caller has moved: no other thread comes to owe a restore. */
  lemma {:induction false} PoisedRun(x: Session, w: World, t: nat, yes: bool, reply: Ladder)
    requires Shape(x) && Poised(x) && t < |x.threads|
    requires Advance(x.spec, x.c, w, t, x.threads[t], yes, reply).Effect?
    ensures var e := Advance(x.spec, x.c, w, t, x.threads[t], yes, reply); Poised(Moved(x, t, e.pc, e.c))
  {
    var th := x.threads[t];
    var e := Advance(x.spec, x.c, w, t, th, yes, reply);
    var y := Moved(x, t, e.pc, e.c);
    assert Own(x.c, t, th) && Own(x.c, 0, x.threads[0]);
    if t > 0 && At(x.threads[0].pc, Checked) {
      assert !WillSwap(th.pc) && y.threads[0] == x.threads[0];
      ComesToSwap(x.spec, x.c, w, t, th, yes, reply);
      assert forall u :: 0 < u < |y.threads| && u != t ==> y.threads[u] == x.threads[u];
    } else if t == 0 {
      NeverBackToChecked(x.spec, x.c, w, th, yes, reply);
    }
  }

  lemma {:induction false} NeverBackToChecked(spec: Spec, c: Cells, w: World, th: Thread, yes: bool, reply: Ladder)
    requires Advance(spec, c, w, 0, th, yes, reply).Effect?
    ensures !At(Advance(spec, c, w, 0, th, yes, reply).pc, Checked)
  {
  }

  lemma {:induction false} PoisedDo(s: State, step: Step)
    requires Shaped(s) && Do(s, step).Some? && CheckedStep(s, step)
    requires forall i :: 0 <= i < |s.sessions| ==> Orderly(s.sessions[i]) && Poised(s.sessions[i])
    ensures forall i :: 0 <= i < |Do(s, step).value.sessions| ==> Poised(Do(s, step).value.sessions[i])
  {
    var s' := Do(s, step).value;
    forall i | 0 <= i < |s'.sessions| ensures Poised(s'.sessions[i]) {
      if i < |s.sessions| {
        var x := s.sessions[i];
        assert Shape(x) && Orderly(x) && Poised(x);
        match step
        case Run(j, t, yes, reply) =>
          if i == j {
            PoisedRun(x, s.w, t, yes, reply);
          }
        case BeginTurn(j) =>
          if i == j {
            ClearIsNotLate(x);
            assert forall u :: 0 < u < |x.threads| ==> s'.sessions[i].threads[u] == x.threads[u];
          }
        case Latch(j) =>
          assert s'.sessions[i].threads == x.threads;
        case _ =>
      }
    }
  }

  lemma {:induction false} CheckedIsHonest(store: Store, steps: seq<Step>)
    requires Play(Init(store), steps).Some? && CheckedRun(Init(store), steps)
    ensures HonestRun(Init(store), steps)
    ensures var s := Play(Init(store), steps).value; forall i :: 0 <= i < |s.sessions| ==> Poised(s.sessions[i])
    decreases |steps|
  {
    if steps != [] {
      var before, step := steps[..|steps| - 1], steps[|steps| - 1];
      CheckedIsHonest(store, before);
      ExclusivePlay(store, before);
      OrderlyPlay(store, before);
      var s := Play(Init(store), before).value;
      PoisedDo(s, step);
      if Takes(s, step) {
        var x := s.sessions[step.i];
        assert Shape(x) && Own(x.c, step.t, x.threads[step.t]) && Poised(x);
      }
    }
  }

  /** The restore theorem for callers that begin a turn only while the session's latches are down. */
  lemma {:induction false} RestoredForCheckingCallers(store: Store, steps: seq<Step>)
    requires Play(Init(store), steps).Some? && CheckedRun(Init(store), steps)
    ensures var w := Play(Init(store), steps).value.w; !w.lease ==> Alike(w.store, store, OffKeys(w))
  {
    CheckedIsHonest(store, steps);
    RestoredKeyByKey(store, steps);
  }
}
