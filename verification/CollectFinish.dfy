/**
 When a collection can still be finished. From any state that any number of
 collectors can bring a directory into, some further run gives every gate its
 status, unless something was begun whose process is gone.
 */
module CollectFinish {
  import opened Wrappers
  import opened Collect
  import opened CollectTogether

  function Follow(s: State, more: seq<Step>): State
    decreases |more|
  {
    if more == [] then s else Follow(Do(s, more[0]), more[1..])
  }

  /** The manifest states the plan and every gate has a whole status. */
  predicate Finished(d: Dir, plan: Plan) {
    && d.manifest == Manifest(plan)
    && forall g :: 0 <= g < |plan.gates| ==> g in d.statuses && d.statuses[g].Status?
  }

  ghost predicate CanFinish(s: State, plan: Plan) {
    exists more :: Finished(Follow(s, more).d, plan)
  }

  /** Every gate orders an attempt; without one no status is ever filed. */
  predicate AllOrder(plan: Plan) {
    forall g :: 0 <= g < |plan.gates| ==> plan.gates[g].entries > 0
  }

  lemma {:induction false} FinishEarlier(s: State, step: Step, plan: Plan)
    requires CanFinish(Do(s, step), plan)
    ensures CanFinish(s, plan)
  {
    var more :| Finished(Follow(Do(s, step), more).d, plan);
    assert ([step] + more)[0] == step && ([step] + more)[1..] == more;
    assert Follow(s, [step] + more) == Follow(Do(s, step), more);
  }

  /** The next step of process `p`, everything in its favour. */
  function Next(s: State, p: nat): State {
    Do(s, Run(p, true, 0))
  }

  lemma {:induction false} NextIs(s: State, p: nat)
    requires p < |s.processes| && Inv(s)
    ensures var x := s.processes[p]; var (d, pc) := Move(s.d, p, x, true, 0);
      Next(s, p) == State(d, s.processes[p := x.(pc := pc)])
    ensures Inv(Next(s, p))
  {
    StepKeeps(s, Run(p, true, 0));
  }

  // ---- from gate to gate ----

  /** Nobody is at work, the gates before `g` are whole and none from `g` on was begun. */
  ghost predicate IdleAt(s: State, plan: Plan, g: nat) {
    && Inv(s) && s.d.manifest == Manifest(plan) && AllOrder(plan) && g <= |plan.gates|
    && (forall q :: 0 <= q < |s.processes| ==> !Working(s.processes[q].pc))
    && Before(s.d, g) && forall h :: h in s.d.journals ==> h < g
  }

  /** The process has opened gate `g` or is further on in it. */
  ghost predicate AtWorkOn(s: State, plan: Plan, p: nat, g: nat) {
    && Inv(s) && AllOrder(plan) && p < |s.processes| && s.processes[p].plan == plan
    && Working(s.processes[p].pc) && s.processes[p].pc.g == g
  }

  lemma {:induction false} WorkIsPlaced(s: State, plan: Plan, p: nat, g: nat)
    requires AtWorkOn(s, plan, p, g)
    ensures s.d.manifest == Manifest(plan) && g < |plan.gates| && Before(s.d, g)
    ensures forall h :: h in s.d.journals ==> h <= g
    ensures forall q :: 0 <= q < |s.processes| && q != p ==> !Working(s.processes[q].pc)
  {
    AtWork(s.d, p, s.processes[p]);
    forall h | h in s.d.journals ensures h <= g {
      BeforeBegun(plan, s.d.journals, s.d.statuses, s.d.launches, h);
    }
    forall q | 0 <= q < |s.processes| && q != p ensures !Working(s.processes[q].pc) {
      OneAtWork(s, p, q);
    }
  }

  /** The status is filed, and the next gate is due. */
  lemma {:induction false} FilingDone(s: State, plan: Plan, p: nat, g: nat)
    requires AtWorkOn(s, plan, p, g) && s.processes[p].pc.WritingStatus?
    ensures IdleAt(Next(s, p), plan, g + 1)
  {
    WorkIsPlaced(s, plan, p, g);
    NextIs(s, p);
  }

  function AttemptsLeft(plan: Plan, g: nat, n: nat): nat {
    if g < |plan.gates| && n <= plan.gates[g].entries then plan.gates[g].entries - n else 0
  }

  /** How many steps the process still has in its gate. */
  function WorkLeft(plan: Plan, pc: Pc): nat {
    match pc
    case Launching(g, n) => 2 * AttemptsLeft(plan, g, n) + 3
    case Logging(g, n, _) => 2 * AttemptsLeft(plan, g, n) + 2
    case CreatingStatus(_, _) => 2
    case WritingStatus(_, _) => 1
    case _ => 0
  }

  /** Before that, the process stays at work in its gate and comes nearer to the end. */
  lemma {:induction false} WorkGoesOn(s: State, plan: Plan, p: nat, g: nat)
    requires AtWorkOn(s, plan, p, g) && !s.processes[p].pc.WritingStatus?
    ensures AtWorkOn(Next(s, p), plan, p, g)
    ensures WorkLeft(plan, Next(s, p).processes[p].pc) < WorkLeft(plan, s.processes[p].pc)
  {
    NextIs(s, p);
  }

  lemma {:induction false} WorkFinishes(s: State, plan: Plan, p: nat, g: nat)
    requires AtWorkOn(s, plan, p, g)
    ensures CanFinish(s, plan)
    decreases |plan.gates| - g, 0, WorkLeft(plan, s.processes[p].pc)
  {
    if s.processes[p].pc.WritingStatus? {
      FilingDone(s, plan, p, g);
      IdleFinishes(Next(s, p), plan, g + 1);
    } else {
      WorkGoesOn(s, plan, p, g);
      WorkFinishes(Next(s, p), plan, p, g);
    }
    FinishEarlier(s, Run(p, true, 0), plan);
  }

  /** At a gate with a whole status a process goes on to the next one. */
  lemma {:induction false} PastWhole(s: State, plan: Plan, p: nat, h: nat, g: nat)
    requires IdleAt(s, plan, g) && h < g && p < |s.processes| && s.processes[p] == Process(plan, AtGate(h))
    ensures var s' := Next(Next(s, p), p);
      IdleAt(s', plan, g) && p < |s'.processes| && s'.processes[p] == Process(plan, AtGate(h + 1))
  {
    NextIs(s, p);
    NextIs(Next(s, p), p);
    assert h in s.d.statuses && s.d.statuses[h].Status?;
    assert Next(Next(s, p), p).d == s.d;
  }

  /** At the first gate without a status it opens the journal. */
  lemma {:induction false} OpensHere(s: State, plan: Plan, p: nat, g: nat)
    requires IdleAt(s, plan, g) && g < |plan.gates|
    requires p < |s.processes| && s.processes[p] == Process(plan, AtGate(g))
    ensures AtWorkOn(Next(Next(s, p), p), plan, p, g)
  {
    NoStatusYet(s, plan, g);
    NextIs(s, p);
    NextIs(Next(s, p), p);
    assert Next(s, p).d == s.d && Next(s, p).processes[p] == Process(plan, Opening(g));
    assert Next(Next(s, p), p).processes[p] == Process(plan, Launching(g, 0));
  }

  /** A process that comes to gate `h` among whole ones goes on to the first that is not, and opens it. */
  lemma {:induction false} WalkFinishes(s: State, plan: Plan, p: nat, h: nat, g: nat)
    requires IdleAt(s, plan, g) && g < |plan.gates| && h <= g
    requires p < |s.processes| && s.processes[p] == Process(plan, AtGate(h))
    ensures CanFinish(s, plan)
    decreases |plan.gates| - g, 1, g - h
  {
    if h < g {
      PastWhole(s, plan, p, h, g);
      WalkFinishes(Next(Next(s, p), p), plan, p, h + 1, g);
    } else {
      OpensHere(s, plan, p, g);
      WorkFinishes(Next(Next(s, p), p), plan, p, g);
    }
    FinishEarlier(Next(s, p), Run(p, true, 0), plan);
    FinishEarlier(s, Run(p, true, 0), plan);
  }

  lemma {:induction false} NoStatusYet(s: State, plan: Plan, g: nat)
    requires IdleAt(s, plan, g) && g < |plan.gates|
    ensures g !in s.d.statuses && g !in s.d.journals
  {
    assert GateKept(g, plan.gates[g].entries, s.d.journals, s.d.statuses, s.d.launches);
  }

  /** With nobody at work a process started now finishes the collection. */
  lemma {:induction false} IdleFinishes(s: State, plan: Plan, g: nat)
    requires IdleAt(s, plan, g)
    ensures CanFinish(s, plan)
    decreases |plan.gates| - g, 2, 0
  {
    if g == |plan.gates| {
      assert Finished(Follow(s, []).d, plan);
    } else {
      var p, s0 := |s.processes|, Do(s, Start(plan));
      StepKeeps(s, Start(plan));
      var s1 := Next(s0, p);
      NextIs(s0, p);
      var s2 := Next(s1, p);
      NextIs(s1, p);
      assert s1.d == s.d && s1.processes[p] == Process(plan, ReadingManifest);
      assert s2.d == s.d && s2.processes[p] == Process(plan, AtGate(0));
      WalkFinishes(s2, plan, p, 0, g);
      FinishEarlier(s1, Run(p, true, 0), plan);
      FinishEarlier(s0, Run(p, true, 0), plan);
      FinishEarlier(s, Start(plan), plan);
    }
  }

  // ---- from any state ----

  /** The manifest is whole and states the plan. */
  lemma {:induction false} WholeFinishes(s: State, plan: Plan)
    requires Inv(s) && AllOrder(plan) && s.d.manifest == Manifest(plan) && !exists g :: Shut(s, g)
    ensures CanFinish(s, plan)
  {
    if p :| 0 <= p < |s.processes| && Working(s.processes[p].pc) {
      AtWork(s.d, p, s.processes[p]);
      WorkFinishes(s, plan, p, s.processes[p].pc.g);
    } else {
      forall g | g in s.d.journals ensures g < |plan.gates| && g in s.d.statuses && s.d.statuses[g].Status? {
        assert !Shut(s, g);
        BeforeBegun(plan, s.d.journals, s.d.statuses, s.d.launches, g);
      }
      var g := FirstOpen(s, plan, 0);
      IdleFinishes(s, plan, g);
    }
  }

  /** The whole statuses are those of the first gates. */
  lemma {:induction false} FirstOpen(s: State, plan: Plan, h: nat) returns (g: nat)
    requires Inv(s) && s.d.manifest == Manifest(plan) && h <= |plan.gates| && Before(s.d, h)
    requires forall g :: g in s.d.journals ==> g < |plan.gates| && g in s.d.statuses && s.d.statuses[g].Status?
    ensures g <= |plan.gates| && Before(s.d, g) && forall k :: k in s.d.journals ==> k < g
    decreases |plan.gates| - h
  {
    if h < |plan.gates| && h in s.d.journals {
      g := FirstOpen(s, plan, h + 1);
    } else {
      g := h;
      if h < |plan.gates| {
        assert GateKept(h, plan.gates[h].entries, s.d.journals, s.d.statuses, s.d.launches);
      }
      forall k | k in s.d.journals ensures k < g {
        BeforeBegun(plan, s.d.journals, s.d.statuses, s.d.launches, k);
      }
    }
  }

  /** Some process is writing the manifest of this plan. */
  ghost predicate BeingWritten(s: State, plan: Plan) {
    exists p :: 0 <= p < |s.processes| && s.processes[p] == Process(plan, WritingManifest)
  }

  lemma {:induction false} NothingBegun(s: State, plan: Plan)
    requires Inv(s) && s.d.manifest == Manifest(plan) && s.d.journals == map[]
    ensures !exists g :: Shut(s, g)
  {
  }

  lemma {:induction false} WrittenFinishes(s: State, plan: Plan)
    requires Inv(s) && AllOrder(plan) && BeingWritten(s, plan)
    ensures CanFinish(s, plan)
  {
    var p :| 0 <= p < |s.processes| && s.processes[p] == Process(plan, WritingManifest);
    NextIs(s, p);
    NothingBegun(Next(s, p), plan);
    WholeFinishes(Next(s, p), plan);
    FinishEarlier(s, Run(p, true, 0), plan);
  }

  lemma {:induction false} MissingFinishes(s: State, plan: Plan)
    requires Inv(s) && AllOrder(plan) && s.d.manifest == NoManifest
    ensures CanFinish(s, plan)
  {
    var p, s0 := |s.processes|, Do(s, Start(plan));
    StepKeeps(s, Start(plan));
    var s1 := Next(s0, p);
    NextIs(s0, p);
    var s2 := Next(s1, p);
    NextIs(s1, p);
    assert s1.processes[p] == Process(plan, CreatingManifest) && s1.d == s.d;
    assert s2.processes[p] == Process(plan, WritingManifest);
    WrittenFinishes(s2, plan);
    FinishEarlier(s1, Run(p, true, 0), plan);
    FinishEarlier(s0, Run(p, true, 0), plan);
    FinishEarlier(s, Start(plan), plan);
  }

  // ---- and nothing else can be finished ----

  /** The manifest is there, and neither states the plan nor is being written for it. */
  ghost predicate Mislaid(s: State, plan: Plan) {
    s.d.manifest != NoManifest && s.d.manifest != Manifest(plan) && !BeingWritten(s, plan)
  }

  lemma {:induction false} MislaidStep(s: State, step: Step, plan: Plan)
    requires Inv(s) && Mislaid(s, plan)
    ensures Mislaid(Do(s, step), plan)
  {
    var s' := Do(s, step);
    forall p | 0 <= p < |s'.processes| ensures s'.processes[p] != Process(plan, WritingManifest) {
      if p < |s.processes| {
        assert s.processes[p] != Process(plan, WritingManifest);
      }
    }
    if step.Run? && step.p < |s.processes| && s.processes[step.p].pc.WritingManifest? {
      assert s.processes[step.p].plan != plan;
    }
  }

  lemma {:induction false} MislaidForGood(s: State, more: seq<Step>, plan: Plan)
    requires Inv(s) && Mislaid(s, plan)
    ensures !Finished(Follow(s, more).d, plan)
    decreases |more|
  {
    if more != [] {
      StepKeeps(s, more[0]);
      MislaidStep(s, more[0], plan);
      MislaidForGood(Do(s, more[0]), more[1..], plan);
    }
  }

  lemma {:induction false} ShutForGood(s: State, more: seq<Step>, g: nat, plan: Plan)
    requires Inv(s) && Shut(s, g)
    ensures !Finished(Follow(s, more).d, plan)
    decreases |more|
  {
    if more != [] {
      StepKeeps(s, more[0]);
      ShutStep(s, more[0], g);
      ShutForGood(Do(s, more[0]), more[1..], g, plan);
    } else if s.d.manifest == Manifest(plan) {
      BeforeBegun(plan, s.d.journals, s.d.statuses, s.d.launches, g);
    }
  }

  lemma {:induction false} FollowKeeps(s: State, more: seq<Step>)
    requires Inv(s)
    ensures Inv(Follow(s, more))
    decreases |more|
  {
    if more != [] {
      StepKeeps(s, more[0]);
      FollowKeeps(Do(s, more[0]), more[1..]);
    }
  }

  lemma {:induction false} FinishedOrders(s: State, plan: Plan)
    requires Inv(s) && Finished(s.d, plan)
    ensures AllOrder(plan)
  {
    forall g | 0 <= g < |plan.gates| ensures plan.gates[g].entries > 0 {
      assert GateKept(g, plan.gates[g].entries, s.d.journals, s.d.statuses, s.d.launches);
    }
  }

  /**
   From any reachable state a collection of `plan` can be finished if and only
   if every gate orders an attempt, the manifest is missing, states the plan
   or is being written for it, and no gate was begun by a process that is
   gone. So nothing but an abandoned file ever stands in its way.
   */
  lemma {:induction false} FinishableIff(steps: seq<Step>, plan: Plan)
    ensures var s := Play(steps);
      CanFinish(s, plan) <==> AllOrder(plan) && !Mislaid(s, plan) && !exists g :: Shut(s, g)
  {
    EveryStateIsOk(steps);
    var s := Play(steps);
    if CanFinish(s, plan) {
      var more :| Finished(Follow(s, more).d, plan);
      FollowKeeps(s, more);
      FinishedOrders(Follow(s, more), plan);
      if Mislaid(s, plan) {
        MislaidForGood(s, more, plan);
      }
      if g :| Shut(s, g) {
        ShutForGood(s, more, g, plan);
      }
    }
    if AllOrder(plan) && !Mislaid(s, plan) && !exists g :: Shut(s, g) {
      if s.d.manifest == NoManifest {
        MissingFinishes(s, plan);
      } else if s.d.manifest == Manifest(plan) {
        WholeFinishes(s, plan);
      } else {
        WrittenFinishes(s, plan);
      }
    }
  }
}
