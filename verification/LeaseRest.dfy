/**
 Nothing is left behind: in every interleaving a session all of whose threads
 have come to rest holds no lease and has reported its turn, and a teardown
 worker that has ended has killed the child.
 */
module LeaseRest {
  import opened Wrappers
  import opened Configuration
  import opened Lease
  import opened LeaseExclusion

  /** The thread is on a way that leads through the swap that gives up the session's own flag. */
  predicate Bound(pc: Pc) {
    || (pc.Turning? && !pc.turn.Checked? && !pc.turn.Taken?)
    || pc.Waiting?
    || (pc.Restoring? && (pc.at.WantLock? || pc.at.HaveLock?))
  }

  /** The thread will still report the running turn. */
  predicate WillReport(th: Thread) {
    th.pc == Turning(Spawning) || (th.role.Turn? && !th.pc.Finished?)
  }

  ghost predicate SomeBound(x: Session) {
    exists t :: 0 <= t < |x.threads| && Bound(x.threads[t].pc)
  }

  ghost predicate SomeReports(x: Session) {
    exists t :: 0 <= t < |x.threads| && WillReport(x.threads[t])
  }

  /** A held flag and a running turn each have their thread, and a worker that has ended has killed the child. */
  ghost predicate Tended(x: Session) {
    && (x.c.hasLease ==> SomeBound(x))
    && (!x.c.done ==> SomeReports(x))
    && (forall t :: 0 <= t < |x.threads| && x.threads[t].role.Worker? && x.threads[t].pc.Finished? ==> x.c.killed)
  }

  /** What one step of a thread does to these. */
  predicate Tends(c: Cells, th: Thread, e: Effect)
    requires e.Effect?
  {
    && (e.c.hasLease && (!c.hasLease || Bound(th.pc)) ==> Bound(e.pc) || th.pc == Turning(Spawning))
    && (!e.c.done && (c.done || WillReport(th)) ==> WillReport(th.(pc := e.pc)) || th.pc == Turning(Spawning))
    && (th.role.Worker? && e.pc.Finished? ==> e.c.killed)
    && (c.killed ==> e.c.killed)
  }

  lemma {:induction false} TurnTends(spec: Spec, c: Cells, w: World, th: Thread, yes: bool, reply: Ladder)
    requires th.role.Caller? && th.pc.Turning? && AdvanceTurn(spec, c, w, th.pc.turn, yes, reply).Effect?
    ensures Tends(c, th, AdvanceTurn(spec, c, w, th.pc.turn, yes, reply))
  {
  }

  lemma {:induction false} RestoreTends(c: Cells, w: World, t: nat, th: Thread, yes: bool)
    requires th.pc.Restoring? && AdvanceRestore(c, w, t, th.role, th.pc.at, yes).Effect?
    ensures Tends(c, th, AdvanceRestore(c, w, t, th.role, th.pc.at, yes))
  {
  }

  lemma {:induction false} OtherTends(c: Cells, w: World, th: Thread)
    requires Fits(th) && !th.pc.Turning? && !th.pc.Restoring? && AdvanceOther(c, w, th.pc).Effect?
    ensures Tends(c, th, AdvanceOther(c, w, th.pc))
  {
  }

  lemma {:induction false} StepTends(spec: Spec, c: Cells, w: World, t: nat, th: Thread, yes: bool, reply: Ladder)
    requires Fits(th) && Advance(spec, c, w, t, th, yes, reply).Effect?
    ensures Tends(c, th, Advance(spec, c, w, t, th, yes, reply))
  {
    if th.pc.Turning? {
      TurnTends(spec, c, w, th, yes, reply);
    } else if th.pc.Restoring? {
      RestoreTends(c, w, t, th, yes);
    } else {
      OtherTends(c, w, th);
    }
  }

  lemma {:induction false} TendedRun(x: Session, w: World, t: nat, yes: bool, reply: Ladder)
    requires Shape(x) && Tended(x) && t < |x.threads|
    requires Advance(x.spec, x.c, w, t, x.threads[t], yes, reply).Effect?
    ensures var e := Advance(x.spec, x.c, w, t, x.threads[t], yes, reply); Tended(Moved(x, t, e.pc, e.c))
  {
    assert Own(x.c, t, x.threads[t]);
    StepTends(x.spec, x.c, w, t, x.threads[t], yes, reply);
    var e := Advance(x.spec, x.c, w, t, x.threads[t], yes, reply);
    var x' := Moved(x, t, e.pc, e.c);
    assert x'.threads[t] == x.threads[t].(pc := e.pc);
    assert x.threads[t].pc == Turning(Spawning) ==> x'.threads[|x.threads|] == Thread(Turn, Waiting);
    assert forall k :: 0 <= k < |x.threads| && k != t ==> x'.threads[k] == x.threads[k];
    if e.c.hasLease && x.c.hasLease {
      var k :| 0 <= k < |x.threads| && Bound(x.threads[k].pc);
      assert k != t ==> Bound(x'.threads[k].pc);
    }
    if !e.c.done && !x.c.done {
      var k :| 0 <= k < |x.threads| && WillReport(x.threads[k]);
      assert k != t ==> WillReport(x'.threads[k]);
    }
  }

  /** The caller goes another way while it is bound to nothing, and other threads may join. */
  lemma {:induction false} TendedCall(x: Session, pc: Pc, c: Cells, more: seq<Thread>)
    requires Shape(x) && Tended(x) && x.threads[0].pc.Idle? && c.hasLease == x.c.hasLease && c.done == x.c.done
    requires c.killed == x.c.killed && forall k :: 0 <= k < |more| ==> !more[k].pc.Finished?
    ensures Tended(Session(x.spec, c, x.threads[0 := x.threads[0].(pc := pc)] + more))
  {
    var x' := Session(x.spec, c, x.threads[0 := x.threads[0].(pc := pc)] + more);
    assert Own(x.c, 0, x.threads[0]);
    assert forall k :: 1 <= k < |x.threads| ==> x'.threads[k] == x.threads[k];
    if c.hasLease {
      var k :| 0 <= k < |x.threads| && Bound(x.threads[k].pc);
      assert Bound(x'.threads[k].pc);
    }
    if !c.done {
      var k :| 0 <= k < |x.threads| && WillReport(x.threads[k]);
      assert WillReport(x'.threads[k]);
    }
  }

  lemma {:induction false} TendedDo(s: State, step: Step, i: nat)
    requires Do(s, step).Some? && i < |Do(s, step).value.sessions|
    requires i < |s.sessions| ==> Shape(s.sessions[i]) && Tended(s.sessions[i])
    ensures Tended(Do(s, step).value.sessions[i])
  {
    if i < |s.sessions| {
      var x := s.sessions[i];
      match step
      case Open(_) =>
      case Latch(j) =>
        if i == j {
          assert SomeBound(x) ==> SomeBound(Do(s, step).value.sessions[i]);
          assert SomeReports(x) ==> SomeReports(Do(s, step).value.sessions[i]);
        }
      case BeginTurn(j) =>
        if i == j {
          TendedCall(x, Turning(Checked), x.c, []);
        }
      case Interrupt(j) =>
        if i == j {
          TendedCall(x, Stopping, x.c.(interrupted := true), [Thread(Worker, Polling)]);
        }
      case Drop(j) =>
        if i == j {
          TendedCall(x, Finished, x.c.(dropped := true), [Thread(Worker, Polling)]);
        }
      case Run(j, t, yes, reply) =>
        if i == j {
          TendedRun(x, s.w, t, yes, reply);
        }
    }
  }

  lemma {:induction false} TendedPlay(store: Store, steps: seq<Step>, i: nat)
    requires Play(Init(store), steps).Some? && i < |Play(Init(store), steps).value.sessions|
    ensures Tended(Play(Init(store), steps).value.sessions[i])
    decreases |steps|
  {
    if steps != [] {
      var before := steps[..|steps| - 1];
      var s := Play(Init(store), before).value;
      ExclusivePlay(store, before);
      if i < |s.sessions| {
        TendedPlay(store, before, i);
        assert Shape(s.sessions[i]);
      }
      TendedDo(s, steps[|steps| - 1], i);
    }
  }

  // ---- theorems ----

  predicate Resting(pc: Pc) {
    pc.Idle? || pc.Finished? || pc.Listening?
  }

  /** No thread is on its way anywhere: the caller is between calls or gone, the others have ended or listen. */
  predicate AtRest(x: Session) {
    forall t :: 0 <= t < |x.threads| ==> Resting(x.threads[t].pc)
  }

  /** A session at rest holds no lease, owes no `Done`, and if one of its workers has ended its child is killed. */
  lemma {:induction false} RestHoldsNothing(store: Store, steps: seq<Step>, i: nat)
    requires Play(Init(store), steps).Some? && i < |Play(Init(store), steps).value.sessions|
    requires AtRest(Play(Init(store), steps).value.sessions[i])
    ensures var x := Play(Init(store), steps).value.sessions[i];
      && !x.c.hasLease && x.c.done && x.c.dones == x.c.begun
      && (forall t :: 0 <= t < |x.threads| && x.threads[t].role.Worker? ==> x.c.killed)
  {
    TendedPlay(store, steps, i);
    DonePerTurn(store, steps, i);
    ExclusivePlay(store, steps);
    var x := Play(Init(store), steps).value.sessions[i];
    assert Shape(x);
    assert forall t :: 0 <= t < |x.threads| ==> Own(x.c, t, x.threads[t]);
  }

  /** With every session at rest the lease is free. */
  lemma {:induction false} LeaseIsNotLeaked(store: Store, steps: seq<Step>)
    requires Play(Init(store), steps).Some?
    requires forall i :: 0 <= i < |Play(Init(store), steps).value.sessions| ==>
               AtRest(Play(Init(store), steps).value.sessions[i])
    ensures !Play(Init(store), steps).value.w.lease
  {
    LeaseIsExclusive(store, steps);
    var s := Play(Init(store), steps).value;
    forall i | 0 <= i < |s.sessions| ensures !s.sessions[i].c.hasLease {
      RestHoldsNothing(store, steps, i);
    }
  }
}
