/**
 The second way the restore fails, and its exact condition. A live session
 writes its model without looking for it in the ladder; a model the opening
 ladder does not list is then written and never recorded.
 */
module LeaseUnlisted {
  import opened Wrappers
  import opened Configuration
  import opened Lease
  import opened LeaseRestore
  import opened LeaseNecessity

  predicate UnlistedSpec(spec: Spec, store: Store) {
    Unlisted(spec.sel, spec.wanted, spec.opening, store)
  }

  /** Only sessions from `specs` are opened. */
  predicate Opens(specs: set<Spec>, steps: seq<Step>) {
    forall k :: 0 <= k < |steps| && steps[k].Open? ==> steps[k].spec in specs
  }

  /** Nothing is interrupted, dropped or latched. */
  predicate Calm(steps: seq<Step>) {
    forall k :: 0 <= k < |steps| ==> steps[k].Open? || steps[k].BeginTurn? || steps[k].Run?
  }

  /** An honest run that ends with the lease free, every restore write landed, and another store than `init`. */
  ghost predicate Spoils(s: State, init: Store, specs: set<Spec>, steps: seq<Step>) {
    && Opens(specs, steps) && HonestRun(s, steps) && Play(s, steps).Some?
    && var w := Play(s, steps).value.w; !w.lease && w.lost == {} && w.store != init
  }

  // ---- an unlisted model is not put back ----

  ghost predicate CanSpoil(s: State, init: Store, specs: set<Spec>) {
    exists steps :: Calm(steps) && Spoils(s, init, specs, steps)
  }

  lemma {:induction false} SpoilsEarlier(s: State, a: Step, init: Store, specs: set<Spec>)
    requires Do(s, a).Some? && HonestStep(s, a) && CanSpoil(Do(s, a).value, init, specs)
    requires a.BeginTurn? || a.Run? || (a.Open? && a.spec in specs)
    ensures CanSpoil(s, init, specs)
  {
    var rest :| Calm(rest) && Spoils(Do(s, a).value, init, specs, rest);
    Single(s, a);
    Concat(s, [a], rest);
    assert Calm([a] + rest) && Spoils(s, init, specs, [a] + rest);
  }

  /** One session, its events loop listening, its caller at `pc`. */
  function Alone(spec: Spec, c: Cells, w: World, pc: Pc): State {
    State(w, [Session(spec, c, [Thread(Caller, pc), Thread(Events, Listening)])])
  }

  predicate Moving(pc: Pc) {
    (pc.Turning? && !pc.turn.Checked? && !pc.turn.Replying? && !pc.turn.Spawning?) || pc.Restoring?
  }

  lemma {:induction false} AloneSteps(spec: Spec, c: Cells, w: World, pc: Pc, yes: bool)
    requires Advance(spec, c, w, 0, Thread(Caller, pc), yes, []).Effect? && pc != Turning(Spawning)
    ensures var e := Advance(spec, c, w, 0, Thread(Caller, pc), yes, []);
      Do(Alone(spec, c, w, pc), Run(0, 0, yes, [])) == Some(Alone(spec, e.c, e.w, e.pc))
  {
    var s, e := Alone(spec, c, w, pc), Advance(spec, c, w, 0, Thread(Caller, pc), yes, []);
    assert s.sessions[0].threads[0 := Thread(Caller, e.pc)] + [] == [Thread(Caller, e.pc), Thread(Events, Listening)];
    assert Do(s, Run(0, 0, yes, [])).value.sessions == Alone(spec, e.c, e.w, e.pc).sessions;
  }

  /** A step of the caller that needs nothing from the environment. */
  lemma {:induction false} AloneSpoils(spec: Spec, c: Cells, w: World, pc: Pc, init: Store, specs: set<Spec>)
    requires Moving(pc) && Advance(spec, c, w, 0, Thread(Caller, pc), true, []).Effect?
    requires var e := Advance(spec, c, w, 0, Thread(Caller, pc), true, []);
      CanSpoil(Alone(spec, e.c, e.w, e.pc), init, specs)
    ensures CanSpoil(Alone(spec, c, w, pc), init, specs)
  {
    AloneSteps(spec, c, w, pc, true);
    SpoilsEarlier(Alone(spec, c, w, pc), Next(0, 0), init, specs);
  }

  lemma {:induction false} Nothing(s: State, init: Store, specs: set<Spec>)
    requires !s.w.lease && s.w.lost == {} && s.w.store != init
    ensures CanSpoil(s, init, specs)
  {
    assert Calm([]) && Spoils(s, init, specs, []);
  }

  /** The restore of a turn that recorded nothing: lock, swap, take an empty list, release. */
  lemma {:induction false} EmptyRestoreSpoils(spec: Spec, c: Cells, w: World, init: Store, specs: set<Spec>)
    requires c.hasLease && c.overwritten == [] && c.lock.None? && w.lost == {} && w.store != init
    ensures CanSpoil(Alone(spec, c, w, Restoring(WantLock)), init, specs)
  {
    var locked := c.(lock := Some(0));
    EmptyReleaseSpoils(spec, locked.(hasLease := false), w, init, specs);
    AloneSpoils(spec, locked, w, Restoring(HaveLock), init, specs);
    AloneSpoils(spec, c, w, Restoring(WantLock), init, specs);
  }

  lemma {:induction false} EmptyReleaseSpoils(spec: Spec, c: Cells, w: World, init: Store, specs: set<Spec>)
    requires c.overwritten == [] && w.lost == {} && w.store != init
    ensures CanSpoil(Alone(spec, c, w, Restoring(Take)), init, specs)
  {
    Nothing(Alone(spec, c, w.(lease := false), Restoring(Unlock)), init, specs);
    AloneSpoils(spec, c, w, Restoring(Release), init, specs);
    AloneSpoils(spec, c, w, Restoring(PutBack([])), init, specs);
    assert RestoreWrites([]) == [];
    AloneSpoils(spec, c, w, Restoring(Take), init, specs);
  }

  /** The model is written, the reply is an error, and the restore has nothing to put back. */
  lemma {:induction false} WriteSpoils(spec: Spec, c: Cells, w: World, specs: set<Spec>)
    requires UnlistedSpec(spec, w.store) && w.lost == {}
    requires c.hasLease && c.overwritten == [] && c.lock.None? && !c.killed
    ensures CanSpoil(Alone(spec, c, w, Turning(Configure(Model, spec.opening))), w.store, specs)
  {
    var value := Text(spec.wanted.model.value);
    var after := Landed(c, w, "model", value);
    assert after.store["model"] == value;
    var replying := Turning(Replying(Model, spec.opening));
    EmptyRestoreSpoils(spec, c, after, w.store, specs);
    AloneSteps(spec, c, after, replying, false);
    SpoilsEarlier(Alone(spec, c, after, replying), Run(0, 0, false, []), w.store, specs);
    AloneSpoils(spec, c, w, Turning(Landing(Model, spec.opening, "model", value)), w.store, specs);
    assert Record([], spec.opening, "model") == [];
    AloneSpoils(spec, c, w, Turning(Configure(Model, spec.opening)), w.store, specs);
  }

  /** A turn is begun and takes the lease. */
  lemma {:induction false} TurnSpoils(store: Store, spec: Spec, specs: set<Spec>)
    requires UnlistedSpec(spec, store)
    ensures CanSpoil(Alone(spec, Opened(spec).c, World(false, store, {}, {}), Turning(Checked)), store, specs)
  {
    var c, w := Opened(spec).c, World(false, store, {}, {});
    var taken := w.(lease := true);
    WriteSpoils(spec, c.(hasLease := true), taken, specs);
    AloneSpoils(spec, c, taken, Turning(Taken), store, specs);
    AloneSteps(spec, c, w, Turning(Checked), true);
    var checked := Alone(spec, c, w, Turning(Checked));
    assert forall t :: 0 < t < 2 ==> !WillSwap(checked.sessions[0].threads[t].pc);
    SpoilsEarlier(checked, Next(0, 0), store, specs);
  }

  /** From an empty process: open the session, begin a turn, take the lease. */
  lemma {:induction false} UnlistedSpoils(store: Store, spec: Spec, specs: set<Spec>)
    requires spec in specs && Truthful(spec.opening, store) && UnlistedSpec(spec, store)
    ensures CanSpoil(Init(store), store, specs)
  {
    TurnSpoils(store, spec, specs);
    var c, w := Opened(spec).c, World(false, store, {}, {});
    var checked := Alone(spec, c, w, Turning(Checked));
    var idle := Alone(spec, c, w, Idle);
    assert Do(idle, BeginTurn(0)).value.sessions[0].threads == checked.sessions[0].threads;
    assert Do(idle, BeginTurn(0)).value.sessions == checked.sessions;
    SpoilsEarlier(idle, BeginTurn(0), store, specs);
    assert Do(Init(store), Open(spec)).value.sessions == idle.sessions;
    SpoilsEarlier(Init(store), Open(spec), store, specs);
  }

  // ---- and nothing else is ----

  lemma {:induction false} OpenedFrom(store: Store, specs: set<Spec>, steps: seq<Step>)
    requires Opens(specs, steps) && Play(Init(store), steps).Some?
    ensures var s := Play(Init(store), steps).value; forall i :: 0 <= i < |s.sessions| ==> s.sessions[i].spec in specs
    decreases |steps|
  {
    if steps != [] {
      var before, step := steps[..|steps| - 1], steps[|steps| - 1];
      OpenedFrom(store, specs, before);
      var s, s' := Play(Init(store), before).value, Play(Init(store), steps).value;
      SpecsKept(s, step);
      assert |s'.sessions| <= |s.sessions| + (if step.Open? then 1 else 0);
    }
  }

  /**
   The exact condition. Sessions of these kinds, whose ladders state the
   values in effect, can break the restore in some honest run that loses no
   restore write if and only if one of them asks for a live model that its
   opening ladder does not list and that is not the one in effect. Then a
   run with no fault, interrupt or drop does it.
   */
  lemma {:induction false} BreaksIffUnlisted(store: Store, specs: set<Spec>)
    requires forall spec :: spec in specs ==> Truthful(spec.opening, store)
    ensures (exists steps :: Spoils(Init(store), store, specs, steps)) <==>
            (exists spec :: spec in specs && UnlistedSpec(spec, store))
    ensures (exists spec :: spec in specs && UnlistedSpec(spec, store)) ==> CanSpoil(Init(store), store, specs)
  {
    if spec :| spec in specs && UnlistedSpec(spec, store) {
      UnlistedSpoils(store, spec, specs);
    }
    if steps :| Spoils(Init(store), store, specs, steps) {
      RestoredWheneverFree(store, steps);
      OpenedFrom(store, specs, steps);
    }
  }

  /** At one input: Cursor's kind of session, a model it was asked for, and a ladder that does not list models. */
  lemma {:induction false} UnlistedModelIsNotPutBack()
    ensures CanSpoil(Init(map["model" := Text("old")]), map["model" := Text("old")],
                     {Spec(LiveOption, Wanted(Some("new"), None, None), None, [])})
  {
    var spec := Spec(LiveOption, Wanted(Some("new"), None, None), None, []);
    assert "old" != "new";
    UnlistedSpoils(map["model" := Text("old")], spec, {spec});
  }
}
