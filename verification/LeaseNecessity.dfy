/**
 The premise on when a turn takes the lease is exact. A caller that takes it
 while another thread of its session has a restore still to run can lose it
 to that thread, write without it, and leave the store changed.
 */
module LeaseNecessity {
  import opened Wrappers
  import opened Configuration
  import opened Lease
  import opened LeaseExclusion
  import opened LeaseOrder
  import opened LeaseRestore
  import opened LeaseInert

  predicate Uninterrupted(steps: seq<Step>) {
    forall k :: 0 <= k < |steps| ==> !steps[k].Interrupt?
  }

  /**
   Steps that interrupt nothing, keep every premise, lose no restore write and
   have no unlisted model, and that end with the lease free and a store that
   is not the one they began with.
   */
  ghost predicate Breaks(s: State, steps: seq<Step>) {
    var p := Play(s, steps);
    && Uninterrupted(steps) && HonestRun(s, steps) && p.Some?
    && !p.value.w.lease && p.value.w.lost == s.w.lost && !AnyUnlisted(p.value, s.w.store)
    && p.value.w.store != s.w.store
  }

  /** Only session `i` moves. */
  predicate Solo(i: nat, steps: seq<Step>) {
    forall k :: 0 <= k < |steps| ==> !steps[k].Open? && steps[k].i == i
  }

  /** Session `i`, left to itself, can break the restore. */
  ghost predicate CanBreak(s: State, i: nat) {
    exists steps :: Solo(i, steps) && Breaks(s, steps)
  }

  lemma {:induction false} Concat(s: State, first: seq<Step>, rest: seq<Step>)
    requires Play(s, first).Some?
    ensures Play(s, first + rest) == Play(Play(s, first).value, rest)
    ensures HonestRun(s, first + rest) <==> HonestRun(s, first) && HonestRun(Play(s, first).value, rest)
    decreases |rest|
  {
    var all := first + rest;
    if rest == [] {
      assert all == first;
    } else {
      Concat(s, first, rest[..|rest| - 1]);
      assert all[..|all| - 1] == first + rest[..|rest| - 1];
    }
  }

  lemma {:induction false} Single(s: State, a: Step)
    requires Do(s, a).Some?
    ensures Play(s, [a]) == Do(s, a)
    ensures HonestRun(s, [a]) <==> HonestStep(s, a)
  {
    assert [a][..0] == [];
    assert Play(s, [a][..|[a]| - 1]) == Some(s);
    assert HonestRun(s, [a][..|[a]| - 1]);
  }

  /** A breaking run after one harmless step is a breaking run from before it. */
  lemma {:induction false} BreaksEarlier(s: State, a: Step, rest: seq<Step>)
    requires Do(s, a).Some? && HonestStep(s, a) && !a.Interrupt? && Breaks(Do(s, a).value, rest)
    requires Do(s, a).value.w.lost == s.w.lost && Do(s, a).value.w.store == s.w.store
    ensures Breaks(s, [a] + rest)
  {
    Single(s, a);
    Concat(s, [a], rest);
  }

  lemma {:induction false} CanBreakEarlier(s: State, i: nat, a: Step)
    requires Do(s, a).Some? && HonestStep(s, a) && !a.Interrupt? && !a.Open? && a.i == i && CanBreak(Do(s, a).value, i)
    requires Do(s, a).value.w.lost == s.w.lost && Do(s, a).value.w.store == s.w.store
    ensures CanBreak(s, i)
  {
    var rest :| Solo(i, rest) && Breaks(Do(s, a).value, rest);
    BreaksEarlier(s, a, rest);
    assert Solo(i, [a] + rest);
  }

  /** No session has an unlisted model, and the child of session `i` lives. */
  predicate Alive(s: State, i: nat) {
    i < |s.sessions| && |s.sessions[i].threads| > 0 && !s.sessions[i].c.killed && !AnyUnlisted(s, s.w.store)
  }

  /** The turn of session `i` is at this stage and can still change the store. */
  ghost predicate CanWrite(s: State, i: nat, stage: Stage, ladder: Ladder) {
    && Alive(s, i) && s.sessions[i].threads[0].pc == Turning(Configure(stage, ladder))
    && CanChange(s.sessions[i].spec, s.w.store, stage, ladder)
  }

  function Next(i: nat, t: nat): Step {
    Run(i, t, true, [])
  }

  /** The caller's next step, as far as the others can tell. */
  lemma {:induction false} CallerStep(s: State, i: nat, reply: Ladder)
    requires Alive(s, i) && s.sessions[i].threads[0].pc.Turning? && s.sessions[i].threads[0].pc != Turning(Spawning)
    requires Do(s, Run(i, 0, true, reply)).Some?
    ensures var x, s' := s.sessions[i], Do(s, Run(i, 0, true, reply)).value;
      var e := AdvanceTurn(x.spec, x.c, s.w, x.threads[0].pc.turn, true, reply);
      && e.Effect? && s'.w == e.w && s'.sessions[i].spec == x.spec && s'.sessions[i].c == e.c
      && |s'.sessions| == |s.sessions| && |s'.sessions[i].threads| == |x.threads|
         && s'.sessions[i].threads[0].pc == e.pc
      && (forall t :: 0 < t < |x.threads| ==> s'.sessions[i].threads[t] == x.threads[t])
      && (s'.w.store == s.w.store ==> !AnyUnlisted(s', s'.w.store))
  {
    SpecsKept(s, Run(i, 0, true, reply));
  }

  /** Without the lease, the caller goes on to the write that changes the store. */
  lemma {:induction false} WritesUnleased(s: State, i: nat, stage: Stage, ladder: Ladder)
    requires CanWrite(s, i, stage, ladder) && !s.w.lease
    ensures CanBreak(s, i)
    decreases StagesLeft(stage), 2
  {
    var x, a := s.sessions[i], Next(i, 0);
    var s1 := Do(s, a).value;
    CallerStep(s, i, []);
    match PlanStage(x.spec.sel, x.spec.wanted, stage, ladder)
    case Skip =>
      WritesUnleased(s1, i, NextStage(stage), ladder);
      CanBreakEarlier(s, i, a);
    case Write(id, value) =>
      assert s1.sessions[i].threads[0].pc == Turning(Landing(stage, ladder, id, value));
      LandsUnleased(s1, i, stage, ladder, id, value);
      CanBreakEarlier(s, i, a);
  }

  lemma {:induction false} LandsUnleased(s: State, i: nat, stage: Stage, ladder: Ladder, id: Key, value: Value)
    requires Alive(s, i) && !s.w.lease && !stage.Ready?
    requires s.sessions[i].threads[0].pc == Turning(Landing(stage, ladder, id, value))
    requires !Idempotent(s.w.store, id, value) || CanChangeAfter(s.sessions[i].spec, s.w.store, stage, ladder)
    ensures CanBreak(s, i)
    decreases StagesLeft(stage), 1
  {
    var a := Next(i, 0);
    var s1 := Do(s, a).value;
    CallerStep(s, i, []);
    assert s1.w.store == s.w.store[id := value] && !s1.w.lease;
    if Idempotent(s.w.store, id, value) {
      assert s1.w.store == s.w.store;
      RepliesUnleased(s1, i, stage, ladder);
      CanBreakEarlier(s, i, a);
    } else {
      Single(s, a);
      SpecsKept(s, a);
      assert !AnyUnlisted(s1, s.w.store);
      assert Solo(i, [a]) && Breaks(s, [a]);
    }
  }

  lemma {:induction false} RepliesUnleased(s: State, i: nat, stage: Stage, ladder: Ladder)
    requires Alive(s, i) && !s.w.lease && !stage.Ready?
      && s.sessions[i].threads[0].pc == Turning(Replying(stage, ladder))
    requires CanChangeAfter(s.sessions[i].spec, s.w.store, stage, ladder)
    ensures CanBreak(s, i)
    decreases StagesLeft(stage), 0
  {
    var x := s.sessions[i];
    var reply: Ladder := [];
    if x.spec.sel.LiveOption? {
      reply :| Truthful(reply, s.w.store) && CanChange(x.spec, s.w.store, NextStage(stage), reply);
    }
    var a := Run(i, 0, true, reply);
    CallerStep(s, i, reply);
    WritesUnleased(Do(s, a).value, i, NextStage(stage), if x.spec.sel.LiveOption? then reply else ladder);
    CanBreakEarlier(s, i, a);
  }

  // ---- the late thread ----

  /** The turn of session `i` is about to configure and can change the store; nothing of the session is owed. */
  ghost predicate Configuring(s: State, i: nat) {
    i < |s.sessions| && s.sessions[i].c.overwritten == [] && CanWrite(s, i, Model, s.sessions[i].spec.opening)
  }

  /** Session `i` has just taken the lease, and its turn can change the store. */
  ghost predicate JustTook(s: State, i: nat) {
    && Alive(s, i) && s.sessions[i].c.overwritten == [] && HasTaken(s.sessions[i].threads[0].pc)
    && CanChange(s.sessions[i].spec, s.w.store, Model, s.sessions[i].spec.opening)
  }

  /** One step of the late thread that leaves the caller and the store where they are. */
  lemma {:induction false} BreaksAfter(s: State, i: nat, t: nat)
    requires i < |s.sessions| && 0 < t < |s.sessions[i].threads| && Do(s, Next(i, t)).Some?
    requires var pc := s.sessions[i].threads[t].pc; !At(pc, Checked) && !(pc.Turning? && pc.turn.Replying?)
    requires var s' := Do(s, Next(i, t)).value; s'.w.lost == s.w.lost && s'.w.store == s.w.store && CanBreak(s', i)
    ensures CanBreak(s, i)
  {
    CanBreakEarlier(s, i, Next(i, t));
  }

  /** The late thread's step, as the caller sees it. */
  lemma {:induction false} LateStep(s: State, i: nat, t: nat)
    requires i < |s.sessions| && 0 < t < |s.sessions[i].threads| && !s.sessions[i].threads[t].pc.Turning?
    requires Do(s, Next(i, t)).Some?
    ensures var x, s' := s.sessions[i], Do(s, Next(i, t)).value;
      var e := Advance(x.spec, x.c, s.w, t, x.threads[t], true, []);
      && e.Effect? && s'.w == e.w && s'.sessions[i].spec == x.spec && s'.sessions[i].c == e.c
      && |s'.sessions| == |s.sessions| && |s'.sessions[i].threads| == |x.threads|
         && s'.sessions[i].threads[t].pc == e.pc
      && (forall u :: 0 <= u < |x.threads| && u != t ==> s'.sessions[i].threads[u] == x.threads[u])
      && (s'.w.store == s.w.store ==> AnyUnlisted(s', s'.w.store) == AnyUnlisted(s, s.w.store))
  {
    SpecsKept(s, Next(i, t));
  }

  lemma {:induction false} ReleasesEmpty(s: State, i: nat, t: nat)
    requires Configuring(s, i) && 0 < t < |s.sessions[i].threads|
    requires s.sessions[i].threads[t].pc == Restoring(PutBack([])) || s.sessions[i].threads[t].pc == Restoring(Release)
    ensures CanBreak(s, i)
    decreases if s.sessions[i].threads[t].pc == Restoring(Release) then 0 else 1
  {
    var s' := Do(s, Next(i, t)).value;
    LateStep(s, i, t);
    if s.sessions[i].threads[t].pc == Restoring(Release) {
      WritesUnleased(s', i, Model, s.sessions[i].spec.opening);
    } else {
      ReleasesEmpty(s', i, t);
    }
    BreaksAfter(s, i, t);
  }

  /** The late thread's part: swap, take an empty list, release. */
  lemma {:induction false} StealsAndReleases(s: State, i: nat, t: nat)
    requires Configuring(s, i) && 0 < t < |s.sessions[i].threads|
    requires s.sessions[i].threads[t].pc == Restoring(HaveLock) && s.sessions[i].c.hasLease
    ensures CanBreak(s, i)
  {
    var s1 := Do(s, Next(i, t)).value;
    LateStep(s, i, t);
    var s2 := Do(s1, Next(i, t)).value;
    LateStep(s1, i, t);
    assert RestoreWrites([]) == [];
    ReleasesEmpty(s2, i, t);
    BreaksAfter(s1, i, t);
    BreaksAfter(s, i, t);
  }

  /** The late thread already has the restore lock. */
  lemma {:induction false} BreaksFromLock(s: State, i: nat, t: nat)
    requires JustTook(s, i) && 0 < t < |s.sessions[i].threads|
    requires s.sessions[i].threads[t].pc == Restoring(HaveLock)
    ensures CanBreak(s, i)
  {
    CallerStep(s, i, []);
    StealsAndReleases(Do(s, Next(i, 0)).value, i, t);
    CanBreakEarlier(s, i, Next(i, 0));
  }

  /** The late thread still has to get the lock, which is free. */
  lemma {:induction false} BreaksFromWaiting(s: State, i: nat, t: nat)
    requires JustTook(s, i) && 0 < t < |s.sessions[i].threads|
    requires WillSwap(s.sessions[i].threads[t].pc) && s.sessions[i].c.lock.None?
    ensures CanBreak(s, i)
    decreases if s.sessions[i].threads[t].pc.Restoring? then 0 else 1
  {
    var pc := s.sessions[i].threads[t].pc;
    if pc == Restoring(HaveLock) {
      BreaksFromLock(s, i, t);
    } else {
      var s' := Do(s, Next(i, t)).value;
      LateStep(s, i, t);
      if pc == Restoring(WantLock) {
        BreaksFromLock(s', i, t);
      } else {
        BreaksFromWaiting(s', i, t);
      }
      BreaksAfter(s, i, t);
    }
  }

  lemma {:induction false} LateTakerBreaks(s: State, tok: Token, i: nat)
    requires Exclusive(s, tok) && JustTook(s, i) && Late(s.sessions[i])
    ensures CanBreak(s, i)
  {
    var x := s.sessions[i];
    assert Shape(x) && HoldsAs(x, i, tok) && Own(x.c, 0, x.threads[0]) && Agrees(i, 0, x.threads[0], tok);
    var t :| 0 < t < |x.threads| && WillSwap(x.threads[t].pc);
    if x.c.lock.None? {
      BreaksFromWaiting(s, i, t);
    } else {
      var u := x.c.lock.value;
      assert Own(x.c, u, x.threads[u]) && Agrees(i, u, x.threads[u], tok) && Own(x.c, t, x.threads[t]);
      if x.threads[u].pc == Restoring(HaveLock) {
        BreaksFromLock(s, i, u);
      } else {
        assert x.threads[u].pc == Restoring(Unlock);
        LateStep(s, i, u);
        BreaksFromWaiting(Do(s, Next(i, u)).value, i, t);
        BreaksAfter(s, i, u);
      }
    }
  }

  // ---- a session that cannot ----

  lemma {:induction false} InertStep(s: State, i: nat, step: Step)
    requires i < |s.sessions| && Inert(s.sessions[i], s.w.store) && !step.Open? && step.i == i
    requires Do(s, step).Some? && HonestStep(s, step)
    ensures var s' := Do(s, step).value;
      i < |s'.sessions| && Inert(s'.sessions[i], s.w.store) && s'.w.store == s.w.store
  {
    match step
    case Run(_, t, yes, reply) => InertKeeps(s.sessions[i], s.w, t, yes, reply);
    case _ =>
  }

  lemma {:induction false} InertPlay(s: State, i: nat, steps: seq<Step>)
    requires i < |s.sessions| && Inert(s.sessions[i], s.w.store) && Solo(i, steps)
    requires HonestRun(s, steps) && Play(s, steps).Some?
    ensures var s' := Play(s, steps).value;
      i < |s'.sessions| && Inert(s'.sessions[i], s.w.store) && s'.w.store == s.w.store
    decreases |steps|
  {
    if steps != [] {
      var before, step := steps[..|steps| - 1], steps[|steps| - 1];
      InertPlay(s, i, before);
      InertStep(Play(s, before).value, i, step);
    }
  }

  lemma {:induction false} InertCannotBreak(s: State, i: nat)
    requires i < |s.sessions| && Inert(s.sessions[i], s.w.store)
    ensures !CanBreak(s, i)
  {
    forall steps | Solo(i, steps) ensures !Breaks(s, steps) {
      if HonestRun(s, steps) && Play(s, steps).Some? {
        InertPlay(s, i, steps);
      }
    }
  }

  // ---- the exact condition ----

  /** Session `i` is about to take the free lease. */
  predicate AboutToTake(s: State, i: nat) {
    && i < |s.sessions| && |s.sessions[i].threads| > 0 && At(s.sessions[i].threads[0].pc, Checked)
    && !s.w.lease && s.w.lost == {}
  }

  /** What is known of a session about to take the lease in a run that keeps the premises. */
  lemma {:induction false} TakerIsClean(store: Store, steps: seq<Step>, i: nat)
    requires Play(Init(store), steps).Some? && HonestRun(Init(store), steps)
    requires AboutToTake(Play(Init(store), steps).value, i) && !AnyUnlisted(Play(Init(store), steps).value, store)
    ensures var s := Play(Init(store), steps).value;
      && s.w.store == store && Exclusive(s, Holder(store, steps)) && Holder(store, steps) == Nobody
      && s.sessions[i].c.overwritten == [] && Truthful(s.sessions[i].spec.opening, store)
  {
    var s := Play(Init(store), steps).value;
    ExclusivePlay(store, steps);
    RestoredWheneverFree(store, steps);
    StrayIsUnlisted(store, steps);
    RestorablePlay(store, steps, {});
    assert StillGood(s.sessions[i], i, Holder(store, steps), s.w, store, {});
    assert forall o :: o in s.sessions[i].spec.opening ==> !Owed([], o.id);
  }

  lemma {:induction false} TakerIsInert(x: Session, i: nat, tok: Token, store: Store)
    requires HoldsAs(x, i, tok) && tok.Won? && tok.i == i && x.c.overwritten == []
    requires |x.threads| > 0 && HasTaken(x.threads[0].pc) && Truthful(x.spec.opening, store)
    requires forall t :: 0 < t < |x.threads| ==> !x.threads[t].pc.Turning?
    requires x.c.killed || !CanChange(x.spec, store, Model, x.spec.opening)
    ensures Inert(x, store)
  {
    forall t | 0 <= t < |x.threads| ensures InertAt(x.spec, store, x.threads[t].pc) {
      assert Agrees(i, t, x.threads[t], tok);
    }
  }

  /**
   Taking the lease is exactly this safe. The session, left to itself, can go
   on to leave the lease free and the store changed if and only if another of
   its threads has a restore still to run, its child lives, and its turn can
   come to a write that changes the store. With no such thread no run at all
   does, whatever the other sessions do.
   */
  lemma {:induction false} TakingIsSafeIffNotLate(store: Store, steps: seq<Step>, i: nat)
    requires Play(Init(store), steps).Some? && HonestRun(Init(store), steps)
    requires AboutToTake(Play(Init(store), steps).value, i) && !AnyUnlisted(Play(Init(store), steps).value, store)
    ensures var s := Play(Init(store), steps).value; var x, s' := s.sessions[i], Do(s, Next(i, 0)).value;
      && (CanBreak(s', i) <==> Late(x) && !x.c.killed && CanChange(x.spec, store, Model, x.spec.opening))
      && (!Late(x) ==> forall rest :: !Breaks(s', rest))
  {
    var s := Play(Init(store), steps).value;
    var x, s' := s.sessions[i], Do(s, Next(i, 0)).value;
    var tok := NextToken(s, Holder(store, steps), Next(i, 0));
    TakerIsClean(store, steps, i);
    ExclusiveDo(s, Holder(store, steps), Next(i, 0));
    var y := s'.sessions[i];
    assert forall t :: 0 < t < |x.threads| ==> y.threads[t] == x.threads[t];
    if !Late(x) {
      NotLateNeverBreaks(store, steps, i);
    } else if x.c.killed || !CanChange(x.spec, store, Model, x.spec.opening) {
      assert Shape(y) && HoldsAs(y, i, tok) && Agrees(i, 0, y.threads[0], tok);
      forall t | 0 < t < |y.threads| ensures !y.threads[t].pc.Turning? {
        assert Own(y.c, t, y.threads[t]);
      }
      TakerIsInert(y, i, tok, store);
      InertCannotBreak(s', i);
    } else {
      var t :| 0 < t < |x.threads| && WillSwap(x.threads[t].pc);
      assert y.threads[t] == x.threads[t];
      SpecsKept(s, Next(i, 0));
      assert JustTook(s', i);
      LateTakerBreaks(s', tok, i);
    }
  }

  lemma {:induction false} NotLateNeverBreaks(store: Store, steps: seq<Step>, i: nat)
    requires Play(Init(store), steps).Some? && HonestRun(Init(store), steps)
    requires var s := Play(Init(store), steps).value; AboutToTake(s, i) && !Late(s.sessions[i]) && s.w.store == store
    ensures forall rest :: !Breaks(Do(Play(Init(store), steps).value, Next(i, 0)).value, rest)
  {
    var s := Play(Init(store), steps).value;
    var s' := Do(s, Next(i, 0)).value;
    assert HonestStep(s, Next(i, 0));
    Single(s, Next(i, 0));
    Concat(Init(store), steps, [Next(i, 0)]);
    var taken := steps + [Next(i, 0)];
    forall rest ensures !Breaks(s', rest) {
      if Play(s', rest).Some? && HonestRun(s', rest) {
        Concat(Init(store), taken, rest);
        RestoredWheneverFree(store, taken + rest);
      }
    }
  }
}
