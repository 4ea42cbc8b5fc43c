/**
 Which turns can change the store at all, and that a session whose turn
 cannot, or whose child is dead, leaves the store alone however its threads
 run.
 */
module LeaseInert {
  import opened Wrappers
  import opened Configuration
  import opened Lease
  import opened LeaseExclusion

  function StagesLeft(stage: Stage): nat {
    match stage
    case Model => 3
    case Effort => 2
    case Fast => 1
    case Ready => 0
  }

  /** The write leaves the store as it is. */
  predicate Idempotent(store: Store, id: Key, value: Value) {
    id in store && store[id] == value
  }

  /**
   A turn at this stage with this ladder can come to a write that changes the
   store: at once, after stages it skips, or after writes of values already in
   effect, whatever truthful ladder a live reply then states.
   */
  ghost predicate CanChange(spec: Spec, store: Store, stage: Stage, ladder: Ladder)
    decreases StagesLeft(stage), 1
  {
    !stage.Ready? &&
    match PlanStage(spec.sel, spec.wanted, stage, ladder)
    case Refuse => false
    case Skip => CanChange(spec, store, NextStage(stage), ladder)
    case Write(id, value) => !Idempotent(store, id, value) || CanChangeAfter(spec, store, stage, ladder)
  }

  /** The same once the stage's write is answered. */
  ghost predicate CanChangeAfter(spec: Spec, store: Store, stage: Stage, ladder: Ladder)
    requires !stage.Ready?
    decreases StagesLeft(stage), 0
  {
    if spec.sel.LiveOption? then
      exists reply :: Truthful(reply, store) && CanChange(spec, store, NextStage(stage), reply)
    else CanChange(spec, store, NextStage(stage), ladder)
  }

  // ---- a session that changes nothing ----

  predicate Settled(store: Store, debt: Debt) {
    forall p :: p in debt ==> Idempotent(store, p.0, p.1)
  }

  ghost predicate InertTurn(spec: Spec, store: Store, at: TurnPc) {
    match at
    case Configure(stage, ladder) => Truthful(ladder, store) && !CanChange(spec, store, stage, ladder)
    case Landing(stage, ladder, id, value) =>
      !stage.Ready? && Truthful(ladder, store) && Idempotent(store, id, value)
          && !CanChangeAfter(spec, store, stage, ladder)
    case Replying(stage, ladder) => !stage.Ready? && Truthful(ladder, store)
        && !CanChangeAfter(spec, store, stage, ladder)
    case _ => true
  }

  ghost predicate InertAt(spec: Spec, store: Store, pc: Pc) {
    match pc
    case Turning(at) => InertTurn(spec, store, at)
    case Restoring(at) => at.PutBack? ==> Settled(store, at.owed)
    case _ => true
  }

  /** The child is dead, or every write the session can still make is of a value already in effect. */
  ghost predicate Inert(x: Session, store: Store) {
    x.c.killed ||
    (&& Truthful(x.spec.opening, store) && !CanChange(x.spec, store, Model, x.spec.opening)
     && Settled(store, x.c.overwritten)
     && forall t :: 0 <= t < |x.threads| ==> InertAt(x.spec, store, x.threads[t].pc))
  }

  lemma {:induction false} KilledKeeps(spec: Spec, c: Cells, w: World, t: nat, th: Thread, yes: bool, reply: Ladder)
    requires c.killed && Advance(spec, c, w, t, th, yes, reply).Effect?
    ensures var e := Advance(spec, c, w, t, th, yes, reply); e.c.killed && e.w.store == w.store
  {
    match th.pc
    case Turning(at) => KilledTurn(spec, c, w, at, yes, reply);
    case _ =>
  }

  lemma {:induction false} KilledTurn(spec: Spec, c: Cells, w: World, at: TurnPc, yes: bool, reply: Ladder)
    requires c.killed && AdvanceTurn(spec, c, w, at, yes, reply).Effect?
    ensures var e := AdvanceTurn(spec, c, w, at, yes, reply); e.c.killed && e.w.store == w.store
  {
  }

  lemma {:induction false} InertTurnKeeps(spec: Spec, c: Cells, w: World, at: TurnPc, yes: bool, reply: Ladder)
    requires Truthful(spec.opening, w.store) && !CanChange(spec, w.store, Model, spec.opening)
    requires Settled(w.store, c.overwritten) && InertTurn(spec, w.store, at)
    requires at.Replying? && yes ==> Truthful(reply, w.store)
    requires AdvanceTurn(spec, c, w, at, yes, reply).Effect?
    ensures var e := AdvanceTurn(spec, c, w, at, yes, reply);
      e.w.store == w.store && Settled(w.store, e.c.overwritten) && InertAt(spec, w.store, e.pc)
  {
    match at
    case Configure(stage, ladder) =>
      var plan := PlanStage(spec.sel, spec.wanted, stage, ladder);
      if plan.Write? {
        SettledRecord(w.store, c.overwritten, ladder, plan.id);
      }
    case Landing(_, _, id, value) => assert w.store[id := value] == w.store;
    case _ =>
  }

  lemma {:induction false} SettledRecord(store: Store, debt: Debt, ladder: Ladder, id: Key)
    requires Truthful(ladder, store) && Settled(store, debt)
    ensures Settled(store, Record(debt, ladder, id))
  {
    var o := FindOption(ladder, id);
    assert o.Some? ==> o.value in ladder;
  }

  lemma {:induction false} InertRestoreKeeps(c: Cells, w: World, t: nat, role: Role, at: RestorePc, yes: bool,
                                             spec: Spec)
    requires Settled(w.store, c.overwritten) && (at.PutBack? ==> Settled(w.store, at.owed))
    requires AdvanceRestore(c, w, t, role, at, yes).Effect?
    ensures var e := AdvanceRestore(c, w, t, role, at, yes);
      e.w.store == w.store && Settled(w.store, e.c.overwritten) && InertAt(spec, w.store, e.pc)
  {
    match at
    case Take => RestoreWritesModelFirst(c.overwritten);
    case PutBack(owed) =>
      if owed != [] {
        assert owed[0] in owed && w.store[owed[0].0 := owed[0].1] == w.store;
      }
    case _ =>
  }

  lemma {:induction false} InertKeeps(x: Session, w: World, t: nat, yes: bool, reply: Ladder)
    requires Inert(x, w.store) && t < |x.threads|
    requires x.threads[t].pc.Turning? && x.threads[t].pc.turn.Replying? && yes ==> Truthful(reply, w.store)
    requires Advance(x.spec, x.c, w, t, x.threads[t], yes, reply).Effect?
    ensures var e := Advance(x.spec, x.c, w, t, x.threads[t], yes, reply);
      e.w.store == w.store && Inert(Moved(x, t, e.pc, e.c), w.store)
  {
    var e := Advance(x.spec, x.c, w, t, x.threads[t], yes, reply);
    if x.c.killed {
      KilledKeeps(x.spec, x.c, w, t, x.threads[t], yes, reply);
    } else {
      assert InertAt(x.spec, w.store, x.threads[t].pc);
      match x.threads[t].pc
      case Turning(at) => InertTurnKeeps(x.spec, x.c, w, at, yes, reply);
      case Restoring(at) => InertRestoreKeeps(x.c, w, t, x.threads[t].role, at, yes, x.spec);
      case _ =>
    }
  }
}
