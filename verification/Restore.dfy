/**
 One session's configure and restore, run to completion by one thread against
 a clock: `apply_requested_configuration`, `restore_configuration`,
 `AcpClient::request` and `wait_write`. Times are in milliseconds; killing
 and reaping a child takes no time.
 */
module Restore {
  import opened Wrappers
  import opened Configuration
  import opened ConfigurationRequest

  const WRITE_BUDGET: nat := 2000
  const CONFIG_RESTORE_BUDGET: nat := 5000
  const ACP_REQUEST_TIMEOUT: nat := 30000
  const WRITE_SLICE: nat := 10

  /**
   How one request fares: when its write ends, whether with an error, whether
   the value is taken, when the reply comes and what ladder it states.
   */
  datatype Manner = Manner(frame: nat, fails: bool, takes: bool, reply: Option<nat>, states: Store -> Ladder)

  datatype Waited = Written | Closed | TimedOut | Interrupted

  /** The reply states the values in effect. */
  ghost predicate Honest(m: Manner) {
    forall s :: Truthful(m.states(s), s)
  }

  function Min(a: nat, b: nat): nat {
    if a < b then a else b
  }

  function Max(a: int, b: int): int {
    if a < b then b else a
  }

  /** The time the first `k` requests need. */
  function Spent(manners: nat -> Manner, k: nat): nat {
    if k == 0 then 0
    else
      var m := manners(k - 1);
      Spent(manners, k - 1) + m.frame + (if m.reply.Some? then m.reply.value else CONFIG_RESTORE_BUDGET)
  }

  /** Every one of the first `n` requests is written, taken and answered, all inside the budget. */
  ghost predicate Answering(manners: nat -> Manner, n: nat) {
    && (forall k: nat :: k < n ==>
          manners(k).takes && !manners(k).fails && manners(k).reply.Some? && 0 < manners(k).frame <= WRITE_BUDGET)
    && Spent(manners, n) <= CONFIG_RESTORE_BUDGET
  }

  lemma {:induction false} SpentGrows(manners: nat -> Manner, k: nat, n: nat)
    requires k <= n
    ensures Spent(manners, k) <= Spent(manners, n)
    decreases n
  {
    if k < n {
      SpentGrows(manners, k, n - 1);
    }
  }

  /** The next of the answered requests fits into what is left of the budget. */
  lemma {:induction false} AnsweredInTime(manners: nat -> Manner, k: nat, n: nat)
    requires Answering(manners, n) && k < n
    ensures var m := manners(k);
      && m.takes && !m.fails && m.reply.Some? && 0 < m.frame <= WRITE_BUDGET
      && Spent(manners, k + 1) == Spent(manners, k) + m.frame + m.reply.value <= CONFIG_RESTORE_BUDGET
  {
    SpentGrows(manners, k + 1, n);
  }

  lemma {:induction false} SameLength(owed: Debt)
    ensures |RestoreWrites(owed)| == |owed|
  {
    RestoreWritesModelFirst(owed);
    assert |multiset(RestoreWrites(owed))| == |multiset(owed)|;
  }

  lemma {:induction false} ApplySnoc(store: Store, writes: Debt, w: (Key, Value))
    ensures Apply(store, writes + [w]) == Apply(store, writes)[w.0 := w.1]
    decreases |writes|
  {
    if writes == [] {
      assert writes + [w] == [w];
      assert Apply(store[w.0 := w.1], [w][1..]) == store[w.0 := w.1];
    } else {
      assert (writes + [w])[1..] == writes[1..] + [w];
      ApplySnoc(store[writes[0].0 := writes[0].1], writes[1..], w);
    }
  }

  /** The frame is written within the time there is. */
  predicate Writable(m: Manner, timeout: nat) {
    0 < timeout && m.frame <= Min(timeout, WRITE_BUDGET) && !m.fails
  }

  /** The reply comes within the time there is. */
  predicate Prompt(m: Manner, timeout: nat) {
    m.reply.Some? && m.frame + m.reply.value <= timeout
  }

  /** A request that is written, taken and answered in its own time. */
  predicate Smooth(m: Manner) {
    m.takes && Writable(m, ACP_REQUEST_TIMEOUT) && Prompt(m, ACP_REQUEST_TIMEOUT)
  }

  class Cli {
    /** When the transport is interrupted, and when its ingress latch goes up. */
    const interruptAt: Option<nat>
    const ingressAt: Option<nat>
    var now: nat
    var store: Store
    /** A write failed: the child is stopped and takes nothing more. */
    var stopped: bool

    constructor (store: Store, interruptAt: Option<nat>, ingressAt: Option<nat>)
      ensures this.store == store && now == 0 && !stopped
      ensures this.interruptAt == interruptAt && this.ingressAt == ingressAt
    {
      this.store, now, stopped := store, 0, false;
      this.interruptAt, this.ingressAt := interruptAt, ingressAt;
    }

    /** A latch that refuses this kind of frame is up. */
    predicate Cut(restore: bool, time: nat) {
      (interruptAt.Some? && interruptAt.value <= time) || (!restore && ingressAt.Some? && ingressAt.value <= time)
    }

    /** Wait for the writer in slices, up to the deadline, looking at the latches before each slice. */
    method WaitWrite(budget: nat, frame: nat, fails: bool, restore: bool) returns (r: Waited)
      modifies this`now
      ensures old(now) <= now <= old(now) + budget
      ensures r.Written? || r.Closed? ==> 0 < budget && frame <= budget && now == old(now) + frame && r.Closed? == fails
      ensures r.TimedOut? ==> (budget == 0 || budget < frame) && now == old(now) + budget
      ensures r.Interrupted? ==> Cut(restore, now) && (now == old(now) || now < old(now) + frame)
      ensures r.Interrupted? && old(now) < now ==> !Cut(restore, Max(old(now), now - WRITE_SLICE))
      ensures !Cut(restore, old(now) + Min(frame, budget)) ==> !r.Interrupted?
      ensures Cut(restore, old(now)) ==> r.Interrupted?
    {
      var started, deadline := now, now + budget;
      while true
        invariant started == old(now) <= now <= deadline == started + budget
        invariant now == started || now < started + frame
        invariant started < now ==> !Cut(restore, Max(started, now - WRITE_SLICE))
        invariant Cut(restore, started) ==> now == started
        decreases deadline - now
      {
        if Cut(restore, now) {
          return Interrupted;
        }
        var remaining := deadline - now;
        if remaining == 0 {
          return TimedOut;
        }
        var slice := Min(remaining, WRITE_SLICE);
        if started + frame <= now + slice {
          now := started + frame;
          return if fails then Closed else Written;
        }
        now := now + slice;
      }
    }

    /**
     One `set_config_option` request, which the ingress latch does not refuse.
     Write wait and reply wait together never pass `timeout`; the value lands
     if the frame was written to a live child that takes it.
     */
    method Request(timeout: nat, m: Manner, id: Key, value: Value) returns (reply: Option<Ladder>)
      modifies this
      ensures old(now) <= now <= old(now) + timeout
      ensures store == old(store) || store == old(store)[id := value]
      ensures Cut(true, old(now)) ==> reply.None? && now == old(now) && store == old(store) && stopped == old(stopped)
      ensures stopped && !old(stopped) ==> timeout == 0 || m.fails || Min(timeout, WRITE_BUDGET) < m.frame
      ensures !m.takes || old(stopped) ==> store == old(store)
      ensures reply.Some? ==> reply.value == m.states(store) && !stopped
      ensures reply.Some? ==>
                Writable(m, timeout) && Prompt(m, timeout) && (m.takes ==> store == old(store)[id := value])
      ensures !old(stopped) && !Cut(true, old(now) + m.frame) && Writable(m, timeout) ==>
                && !stopped && (m.takes ==> store == old(store)[id := value])
                && (if Prompt(m, timeout) then reply.Some? && now == old(now) + m.frame + m.reply.value
                    else reply.None? && now == old(now) + timeout)
      ensures !old(stopped) && !Cut(true, old(now) + m.frame) && !Writable(m, timeout) ==> stopped && reply.None?
      ensures stopped && !old(stopped) ==> store == old(store)
    {
      if Cut(true, now) {
        return None;
      }
      var started := now;
      var waited := WaitWrite(Min(timeout, WRITE_BUDGET), m.frame, m.fails, true);
      if waited.Closed? || waited.TimedOut? {
        stopped := true;
      }
      if !waited.Written? || stopped {
        return None;
      }
      if m.takes {
        store := store[id := value];
      }
      var remaining := timeout - (now - started);
      if m.reply.Some? && m.reply.value <= remaining {
        now := now + m.reply.value;
        return Some(m.states(store));
      }
      now := now + remaining;
      return None;
    }

    /** The child lives, and nothing interrupts it for the time of `n` requests. */
    predicate Steady(n: nat)
      reads this
    {
      !stopped && !Cut(true, now + n * ACP_REQUEST_TIMEOUT)
    }

    /** Nothing stands in the way of a restore begun now: the child lives and is not interrupted within the budget. */
    predicate Reachable()
      reads this
    {
      !stopped && !Cut(true, now + CONFIG_RESTORE_BUDGET)
    }

    /**
     Put everything owed back, inside one budget shared by all writes. What
     the harness answers in time is back in the store when this returns.
     */
    method RestoreConfiguration(owed: Debt, manners: nat -> Manner)
      modifies this
      ensures old(now) <= now <= old(now) + CONFIG_RESTORE_BUDGET
      ensures old(Reachable()) && Answering(manners, |owed|) ==>
            store == Apply(old(store), RestoreWrites(owed)) && !stopped
    {
      var writes := RestoreWrites(owed);
      SameLength(owed);
      var deadline := now + CONFIG_RESTORE_BUDGET;
      ghost var answered := Reachable() && Answering(manners, |writes|);
      var k := 0;
      while k < |writes| && now <= deadline
        invariant 0 <= k <= |writes| && old(now) <= now <= deadline == old(now) + CONFIG_RESTORE_BUDGET
        invariant answered ==>
              store == Apply(old(store), writes[..k]) && !stopped && now == old(now) + Spent(manners, k)
      {
        if answered {
          AnsweredInTime(manners, k, |writes|);
          ApplySnoc(old(store), writes[..k], writes[k]);
          assert writes[..k] + [writes[k]] == writes[..k + 1];
        }
        var _ := Request(deadline - now, manners(k), writes[k].0, writes[k].1);
        k := k + 1;
      }
      assert writes[..|writes|] == writes;
    }
  }

  /** A leased session, as one thread configures and restores it. */
  class Leased {
    const sel: Selection
    const wanted: Wanted
    const opening: Ladder
    const cli: Cli
    var overwritten: Debt

    constructor (sel: Selection, wanted: Wanted, opening: Ladder, cli: Cli)
      ensures this.sel == sel && this.wanted == wanted && this.opening == opening && this.cli == cli
        && overwritten == []
    {
      this.sel, this.wanted, this.opening, this.cli, overwritten := sel, wanted, opening, cli, [];
    }

    /** The key this session may leave changed: the model, if its ladder does not list it. */
    ghost function Off(init: Store): set<Key> {
      if Unlisted(sel, wanted, opening, init) then {"model"} else {}
    }

    /** The stage has something to write. */
    predicate Asked(stage: Stage) {
      match stage
      case Model => AsksModel(sel, wanted)
      case Effort => wanted.effort.Some?
      case _ => false
    }

    /** One stage: record, write, read the reply. The ladder to go on with, or nothing if the stage failed. */
    method Configure(stage: Stage, ladder: Ladder, m: Manner, ghost init: Store) returns (next: Option<Ladder>)
      requires Owes(cli.store, init, overwritten, Off(init)) && Usable(ladder, init, overwritten, Off(init))
        && Honest(m)
      requires stage.Model? ==> ladder == opening
      modifies this, cli
      ensures Owes(cli.store, init, overwritten, Off(init))
      ensures next.Some? ==> Usable(next.value, init, overwritten, Off(init))
      ensures next.Some? && m.takes ==>
                && StageGranted(sel, wanted, stage, ladder, old(cli.store), cli.store)
                && (stage.Model? || stage.Effort? ==>
                      next.value == LadderAfter(sel, Asked(stage), ladder, m.states(cli.store)))
      ensures old(cli.Steady(1)) && Smooth(m) ==>
                && !cli.stopped && cli.now <= old(cli.now) + ACP_REQUEST_TIMEOUT
                && (next.Some? <==> !RefusesStage(sel, wanted, stage, ladder))
                && (next.None? ==> cli.store == old(cli.store))
    {
      next := None;
      var plan := PlanStage(sel, wanted, stage, ladder);
      PlanRefuses(sel, wanted, stage, ladder);
      if !plan.Refuse? {
        PlanGrants(sel, wanted, stage, ladder, cli.store, Outcome(plan, cli.store).value);
      }
      match plan
      case Skip => next := Some(ladder);
      case Refuse =>
      case Write(id, value) =>
        RecordCovers(cli.store, init, overwritten, ladder, id, Off(init));
        PlanIsAccounted(sel, wanted, stage, ladder, opening, cli.store, init, overwritten, Off(init));
        overwritten := Record(overwritten, ladder, id);
        OwesWrite(cli.store, init, overwritten, id, value, Off(init));
        next := cli.Request(ACP_REQUEST_TIMEOUT, m, id, value);
        if next.Some? {
          LadderUsable(next.value, cli.store, init, overwritten, Off(init));
          if !sel.LiveOption? {
            next := Some(ladder);
          }
        }
    }

    /**
     Model, then effort, then the fast switch; the first failure ends it with
     the debt complete. On success the store holds what was asked for, and
     with a harness that takes and answers every request in time it succeeds
     exactly if none of them is refused.
     */
    method ApplyRequestedConfiguration(model: Manner, effort: Manner, fast: Manner) returns (ok: bool)
      requires overwritten == [] && Truthful(opening, cli.store)
      requires Honest(model) && Honest(effort) && Honest(fast)
      modifies this, cli
      ensures Owes(cli.store, old(cli.store), overwritten, Off(old(cli.store)))
      ensures ok && model.takes && effort.takes && fast.takes ==>
                Granted(sel, wanted, opening, model.states, effort.states, old(cli.store), cli.store)
      ensures old(cli.Steady(3)) && Smooth(model) && Smooth(effort) && Smooth(fast) ==>
                (ok <==> !Refused(sel, wanted, opening, model.states, effort.states, old(cli.store)))
    {
      ghost var init := cli.store;
      LadderUsable(opening, cli.store, init, [], Off(init));
      var ladder := Configure(Model, opening, model, init);
      ghost var s1 := cli.store;
      if ladder.Some? {
        ladder := Configure(Effort, ladder.value, effort, init);
      }
      ghost var s2 := cli.store;
      if ladder.Some? {
        ladder := Configure(Fast, ladder.value, fast, init);
      }
      ok := ladder.Some?;
      if ok && model.takes && effort.takes && fast.takes {
        assert ModelGranted(sel, wanted, opening, init, s1);
        assert EffortGranted(wanted, EffortLadder(sel, wanted, opening, model.states, s1), s1, s2);
        assert FastGranted(wanted, FastLadder(sel, wanted, opening, model.states, effort.states, s1, s2), s2,
                           cli.store);
      }
    }

    /** Everything this session's turn overwrote and recorded goes back, and the list is emptied. */
    method RestoreConfiguration(manners: nat -> Manner, ghost init: Store)
      requires Owes(cli.store, init, overwritten, Off(init))
      modifies this, cli
      ensures overwritten == []
      ensures old(cli.now) <= cli.now <= old(cli.now) + CONFIG_RESTORE_BUDGET
      ensures old(cli.Reachable()) && Answering(manners, |old(overwritten)|) ==> Alike(cli.store, init, Off(init))
    {
      var owed := overwritten;
      overwritten := [];
      OwesRestoreWrites(cli.store, init, owed, Off(init));
      OwesPaid(cli.store, init, RestoreWrites(owed), Off(init));
      cli.RestoreConfiguration(owed, manners);
    }
  }
}
