/**
 A transport fault alone leads to a late thread: the events loop finishes the
 turn and reports it done before the turn's own thread has run its restore.
 */
module LeaseFault {
  import opened Wrappers
  import opened Configuration
  import opened Lease
  import opened LeaseExclusion
  import opened LeaseOrder
  import opened LeaseRestore
  import opened LeaseInert
  import opened LeaseNecessity

  /** One session: its caller, its events loop and, once there is one, its turn thread. */
  function Trio(spec: Spec, c: Cells, w: World, caller: Pc, events: Pc, turn: bool): State {
    State(w, [Session(spec, c, [Thread(Caller, caller), Thread(Events, events)] +
                               if turn then [Thread(Turn, Waiting)] else [])])
  }

  /** A run that interrupts nothing and keeps the premises leads to `late`. */
  ghost predicate Leads(s: State, late: State) {
    exists steps :: Uninterrupted(steps) && HonestRun(s, steps) && Play(s, steps) == Some(late)
  }

  lemma {:induction false} LeadsEarlier(s: State, a: Step, late: State)
    requires Do(s, a).Some? && HonestStep(s, a) && !a.Interrupt? && Leads(Do(s, a).value, late)
    ensures Leads(s, late)
  {
    var rest :| Uninterrupted(rest) && HonestRun(Do(s, a).value, rest) && Play(Do(s, a).value, rest) == Some(late);
    Single(s, a);
    Concat(s, [a], rest);
    assert Uninterrupted([a] + rest);
  }

  /** A step of the caller. */
  lemma {:induction false} CallerLeads(spec: Spec, c: Cells, w: World, at: TurnPc, reply: Ladder, late: State)
    requires var e := AdvanceTurn(spec, c, w, at, true, reply);
      e.Effect? && Leads(Trio(spec, e.c, e.w, e.pc, Listening, at.Spawning?), late)
    requires at.Replying? ==> Truthful(reply, w.store)
    ensures Leads(Trio(spec, c, w, Turning(at), Listening, false), late)
  {
    var s, a := Trio(spec, c, w, Turning(at), Listening, false), Run(0, 0, true, reply);
    var e := AdvanceTurn(spec, c, w, at, true, reply);
    var s' := Trio(spec, e.c, e.w, e.pc, Listening, at.Spawning?);
    assert Do(s, a).value.sessions[0].threads == s'.sessions[0].threads;
    assert Do(s, a).value.sessions == s'.sessions;
    assert forall t :: 0 < t < 2 ==> !WillSwap(s.sessions[0].threads[t].pc);
    LeadsEarlier(s, a, late);
  }

  /** A step of the events loop, the caller idle and the turn thread waiting. */
  lemma {:induction false} EventsLead(spec: Spec, c: Cells, w: World, pc: Pc, late: State)
    requires !pc.Turning?
    requires var e := Advance(spec, c, w, 1, Thread(Events, pc), true, []);
      e.Effect? && Leads(Trio(spec, e.c, e.w, Idle, e.pc, true), late)
    ensures Leads(Trio(spec, c, w, Idle, pc, true), late)
  {
    var s := Trio(spec, c, w, Idle, pc, true);
    var e := Advance(spec, c, w, 1, Thread(Events, pc), true, []);
    var s' := Trio(spec, e.c, e.w, Idle, e.pc, true);
    assert Do(s, Next(0, 1)).value.sessions[0].threads == s'.sessions[0].threads;
    assert Do(s, Next(0, 1)).value.sessions == s'.sessions;
    LeadsEarlier(s, Next(0, 1), late);
  }

  lemma {:induction false} BeginLeads(spec: Spec, c: Cells, w: World, events: Pc, turn: bool, late: State)
    requires c.done && spec.cap.None? && Leads(Trio(spec, c, w, Turning(Checked), events, turn), late)
    ensures Leads(Trio(spec, c, w, Idle, events, turn), late)
  {
    var s, s' := Trio(spec, c, w, Idle, events, turn), Trio(spec, c, w, Turning(Checked), events, turn);
    assert Do(s, BeginTurn(0)).value.sessions[0].threads == s'.sessions[0].threads;
    assert Do(s, BeginTurn(0)).value.sessions == s'.sessions;
    LeadsEarlier(s, BeginTurn(0), late);
  }

  lemma {:induction false} LatchLeads(spec: Spec, c: Cells, w: World, late: State)
    requires Leads(Trio(spec, c.(ingressFailed := true), w, Idle, Listening, true), late)
    ensures Leads(Trio(spec, c, w, Idle, Listening, true), late)
  {
    var s := Trio(spec, c, w, Idle, Listening, true);
    var s' := Trio(spec, c.(ingressFailed := true), w, Idle, Listening, true);
    assert Do(s, Latch(0)).value.sessions == s'.sessions;
    LeadsEarlier(s, Latch(0), late);
  }

  // ---- the run, backwards: what each part of it needs next ----

  lemma {:induction false} ReleaseLeads(spec: Spec, c: Cells, w: World, late: State)
    requires Leads(Trio(spec, SendDone(c.(lock := None)), w.(lease := false), Idle, Finished, true), late)
    ensures Leads(Trio(spec, c, w, Idle, Restoring(Release), true), late)
  {
    EventsLead(spec, c.(lock := None), w.(lease := false), Reporting, late);
    EventsLead(spec, c, w.(lease := false), Restoring(Unlock), late);
    EventsLead(spec, c, w, Restoring(Release), late);
  }

  lemma {:induction false} PutBackLeads(spec: Spec, c: Cells, w: World, debt: Debt, late: State)
    requires !c.killed && |debt| == 1
    requires Leads(Trio(spec, c, w.(store := w.store[debt[0].0 := debt[0].1]), Idle, Restoring(Release), true), late)
    ensures Leads(Trio(spec, c, w, Idle, Restoring(PutBack(debt)), true), late)
  {
    EventsLead(spec, c, w.(store := w.store[debt[0].0 := debt[0].1]), Restoring(PutBack(debt[1..])), late);
    EventsLead(spec, c, w, Restoring(PutBack(debt)), late);
  }

  /** The cells of a session whose events loop has taken its list. */
  function Swapped(c: Cells): Cells {
    c.(lock := Some(1), hasLease := false, overwritten := [])
  }

  lemma {:induction false} SwapLeads(spec: Spec, c: Cells, w: World, late: State)
    requires c.ingressFailed && !c.done && c.hasLease && c.lock.None?
    requires Leads(Trio(spec, Swapped(c), w, Idle, Restoring(PutBack(RestoreWrites(c.overwritten))), true), late)
    ensures Leads(Trio(spec, c, w, Idle, Listening, true), late)
  {
    var locked := c.(lock := Some(1));
    EventsLead(spec, locked.(hasLease := false), w, Restoring(Take), late);
    EventsLead(spec, locked, w, Restoring(HaveLock), late);
    EventsLead(spec, c, w, Restoring(WantLock), late);
    EventsLead(spec, c, w, Listening, late);
  }

  /** The fault: the events loop restores, releases and reports, and the next turn passes its check. */
  lemma {:induction false} FaultLeads(spec: Spec, c: Cells, w: World, late: State)
    requires !c.done && c.hasLease && c.lock.None? && !c.killed && spec.cap.None?
    requires |c.overwritten| == 1 && RestoreWrites(c.overwritten) == c.overwritten
    requires var (k, v) := c.overwritten[0];
      late == Trio(spec, SendDone(Swapped(c.(ingressFailed := true)).(lock := None)),
                   w.(store := w.store[k := v], lease := false), Turning(Checked), Finished, true)
    ensures Leads(Trio(spec, c, w, Idle, Listening, true), late)
  {
    var latched, back := c.(ingressFailed := true), w.(store := w.store[c.overwritten[0].0 := c.overwritten[0].1]);
    assert Uninterrupted([]) && HonestRun(late, []) && Play(late, []) == Some(late);
    BeginLeads(spec, late.sessions[0].c, late.w, Finished, true, late);
    ReleaseLeads(spec, Swapped(latched), back, late);
    PutBackLeads(spec, Swapped(latched), w, c.overwritten, late);
    SwapLeads(spec, latched, w, late);
    LatchLeads(spec, c, w, late);
  }

  lemma {:induction false} PromptLeads(spec: Spec, c: Cells, w: World, late: State)
    requires !c.ingressFailed && !c.killed
    requires Leads(Trio(spec, c.(done := false, begun := c.begun + 1), w, Idle, Listening, true), late)
    ensures Leads(Trio(spec, c, w, Turning(Prompting), Listening, false), late)
  {
    CallerLeads(spec, c.(done := false, begun := c.begun + 1), w, Spawning, [], late);
    CallerLeads(spec, c, w, Marking, [], late);
    CallerLeads(spec, c, w, Prompting, [], late);
  }

  /** The model is the only value the session asks for, and a write of it is listed. */
  predicate OneWrite(spec: Spec, value: Value) {
    && spec.sel.LiveOption? && spec.wanted.effort.None? && spec.wanted.tier.None?
    && PlanStage(spec.sel, spec.wanted, Model, spec.opening) == Write("model", value)
  }

  lemma {:induction false} ConfigureLeads(spec: Spec, c: Cells, w: World, value: Value, reply: Ladder, late: State)
    requires OneWrite(spec, value) && !c.killed && Owed(Record(c.overwritten, spec.opening, "model"), "model")
    requires Truthful(reply, w.store["model" := value]) && FindOption(reply, "fast").None?
    requires Leads(Trio(spec, c.(overwritten := Record(c.overwritten, spec.opening, "model")),
                        w.(store := w.store["model" := value]), Turning(Prompting), Listening, false), late)
    ensures Leads(Trio(spec, c, w, Turning(Configure(Model, spec.opening)), Listening, false), late)
  {
    var owing := c.(overwritten := Record(c.overwritten, spec.opening, "model"));
    var after := w.(store := w.store["model" := value]);
    CallerLeads(spec, owing, after, Configure(Fast, reply), [], late);
    CallerLeads(spec, owing, after, Configure(Effort, reply), [], late);
    CallerLeads(spec, owing, after, Replying(Model, spec.opening), reply, late);
    CallerLeads(spec, owing, w, Landing(Model, spec.opening, "model", value), [], late);
    CallerLeads(spec, c, w, Configure(Model, spec.opening), [], late);
  }

  lemma {:induction false} TakeLeads(spec: Spec, c: Cells, w: World, late: State)
    requires !w.lease
    requires Leads(Trio(spec, c.(hasLease := true), w.(lease := true), Turning(Configure(Model, spec.opening)),
                        Listening, false), late)
    ensures Leads(Trio(spec, c, w, Turning(Checked), Listening, false), late)
  {
    CallerLeads(spec, c, w.(lease := true), Taken, [], late);
    CallerLeads(spec, c, w, Checked, [], late);
  }

  /** The next turn has passed its check; the first one's thread still waits. */
  function LateState(spec: Spec, store: Store): State {
    Trio(spec, Cells(true, false, [], None, true, false, false, false, 1, 1), World(false, store, {}, {}),
         Turning(Checked), Finished, true)
  }

  /** The first turn, from its check of the lease to the fault that ends it. */
  lemma {:induction false} TurnLeads(spec: Spec, c: Cells, w: World, value: Value, reply: Ladder, late: State)
    requires c.done && !c.ingressFailed && !c.killed && c.lock.None? && c.overwritten == [] && !w.lease
    requires OneWrite(spec, value) && spec.cap.None? && "model" in w.store
    requires var debt := [("model", w.store["model"])];
      RestoreWrites(debt) == debt && Record([], spec.opening, "model") == debt
    requires Truthful(reply, w.store["model" := value]) && FindOption(reply, "fast").None?
    requires var ended := c.(hasLease := false, ingressFailed := true, begun := c.begun + 1, dones := c.dones + 1);
      late == Trio(spec, ended, w, Turning(Checked), Finished, true)
    ensures Leads(Trio(spec, c, w, Turning(Checked), Listening, false), late)
  {
    var debt := [("model", w.store["model"])];
    assert debt[0] in debt && Owed(debt, "model");
    var owing := c.(hasLease := true, overwritten := debt);
    var after := w.(lease := true, store := w.store["model" := value]);
    assert after.store["model" := w.store["model"]] == w.store;
    FaultLeads(spec, owing.(done := false, begun := c.begun + 1), after, late);
    PromptLeads(spec, owing, after, late);
    ConfigureLeads(spec, c.(hasLease := true), w.(lease := true), value, reply, late);
    TakeLeads(spec, c, w, late);
  }

  lemma {:induction false} StartLeads(spec: Spec, c: Cells, store: Store, late: State)
    requires c == Opened(spec).c && spec.cap.None? && Truthful(spec.opening, store)
    requires Leads(Trio(spec, c, World(false, store, {}, {}), Turning(Checked), Listening, false), late)
    ensures Leads(Init(store), late)
  {
    var free := World(false, store, {}, {});
    BeginLeads(spec, c, free, Listening, false, late);
    var idle := Trio(spec, c, free, Idle, Listening, false);
    assert idle.sessions[0].threads == Opened(spec).threads;
    assert Do(Init(store), Open(spec)).value.sessions == idle.sessions;
    LeadsEarlier(Init(store), Open(spec), late);
  }

  // ---- and what follows ----

  ghost predicate Unrestored(store: Store, steps: seq<Step>) {
    var p := Play(Init(store), steps);
    && Uninterrupted(steps) && p.Some? && !p.value.w.lease && p.value.w.lost == {} && !AnyUnlisted(p.value, store)
    && p.value.w.store != store
  }

  lemma {:induction false} BreaksAtEnd(store: Store, steps: seq<Step>, a: Step, rest: seq<Step>)
    requires Uninterrupted(steps) && !a.Interrupt? && Play(Init(store), steps).Some?
    requires var s := Play(Init(store), steps).value;
      && Do(s, a).Some? && s.w.lost == {} && s.w.store == store && Breaks(Do(s, a).value, rest)
      && Do(s, a).value.w.store == store && Do(s, a).value.w.lost == {}
    ensures Unrestored(store, steps + [a] + rest)
  {
    Single(Play(Init(store), steps).value, a);
    Concat(Init(store), steps, [a]);
    Concat(Init(store), steps + [a], rest);
  }

  /** Any run that ends with a late session about to take the lease goes on to break the restore. */
  lemma {:induction false} LateRunBreaks(late: State, store: Store, steps: seq<Step>, i: nat)
    requires Uninterrupted(steps) && HonestRun(Init(store), steps) && Play(Init(store), steps) == Some(late)
    requires AboutToTake(late, i) && !AnyUnlisted(late, store) && Late(late.sessions[i]) && !late.sessions[i].c.killed
    requires CanChange(late.sessions[i].spec, store, Model, late.sessions[i].spec.opening)
    ensures exists steps :: Unrestored(store, steps)
  {
    TakingIsSafeIffNotLate(store, steps, i);
    TakerIsClean(store, steps, i);
    var rest :| Breaks(Do(late, Next(i, 0)).value, rest);
    BreaksAtEnd(store, steps, Next(i, 0), rest);
  }

  lemma {:induction false} LateStateIsLate(spec: Spec, store: Store)
    requires FindOption(spec.opening, "model").Some?
    ensures var late := LateState(spec, store);
      AboutToTake(late, 0) && Late(late.sessions[0]) && !late.sessions[0].c.killed && !AnyUnlisted(late, store)
  {
    assert WillSwap(LateState(spec, store).sessions[0].threads[2].pc);
  }

  /** A session that asks for another model than the one in effect, its ladder stating the model it puts back. */
  lemma {:induction false} FaultThenTurn(spec: Spec, store: Store, value: Value, reply: Ladder)
    requires OneWrite(spec, value) && spec.cap.None? && "model" in store && Truthful(spec.opening, store)
    requires FindOption(spec.opening, "model").Some? && CanChange(spec, store, Model, spec.opening)
    requires var debt := [("model", store["model"])];
      RestoreWrites(debt) == debt && Record([], spec.opening, "model") == debt
    requires Truthful(reply, store["model" := value]) && FindOption(reply, "fast").None?
    ensures exists steps :: Unrestored(store, steps)
  {
    var late := LateState(spec, store);
    TurnLeads(spec, Opened(spec).c, World(false, store, {}, {}), value, reply, late);
    StartLeads(spec, Opened(spec).c, store, late);
    LateStateIsLate(spec, store);
    var steps :| Uninterrupted(steps) && HonestRun(Init(store), steps) && Play(Init(store), steps) == Some(late);
    LateRunBreaks(late, store, steps, 0);
  }

  lemma {:induction false} OneIsItsOwnRestore(v: Value)
    ensures RestoreWrites([("model", v)]) == [("model", v)]
  {
    var debt := [("model", v)];
    assert debt[1..] == [];
    assert Only(debt, true) == [debt[0]] + Only(debt[1..], true);
    assert Only(debt, false) == [] + Only(debt[1..], false);
  }

  /**
   So the restore property is not unconditional: a run that interrupts
   nothing, with every model listed and every restore write landed, leaves
   the lease free and the model changed, because a turn began after a fault
   and before the faulted turn's thread.
   */
  lemma {:induction false} FaultThenTurnBreaksRestore()
    ensures exists steps :: Unrestored(map["model" := Text("old")], steps)
  {
    var given, wanted := Text("old"), Text("new");
    assert "old" != "new";
    var opening: Ladder := [Opt("model", Some(given), [])];
    var spec := Spec(LiveOption, Wanted(Some("new"), None, None), None, opening);
    OneIsItsOwnRestore(given);
    assert FindOption(opening, "model") == Some(opening[0]);
    FaultThenTurn(spec, map["model" := given], wanted, [Opt("model", Some(wanted), [])]);
  }
}
