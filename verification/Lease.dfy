/**
 The configuration-lease protocol of `acp_session.rs` as a step relation.

 Any number of sessions share one process-wide lease over one CLI-wide store.
 Each session has its caller (thread 0), its events loop (thread 1), one turn
 thread per accepted prompt and one teardown worker per interrupt or drop.
 Every load, store, swap, compare-exchange, lock and critical section of the
 source is one step; any enabled thread may move next.
 */
module Lease {
  import opened Wrappers
  import opened Configuration

  datatype Role = Caller | Events | Turn | Worker

  /** Where `send_user_message` is. */
  datatype TurnPc =
    | Checked                                               // `done` was read true
    | Taken                                                 // compare-exchange won, own flag not yet stored
    | Configure(stage: Stage, ladder: Ladder)
    | Landing(stage: Stage, ladder: Ladder, id: Key, value: Value)
    | Replying(stage: Stage, ladder: Ladder)
    | Prompting
    | Marking                                               // prompt accepted, `done` about to be cleared
    | Spawning                                              // turn thread about to be spawned

  /** Where `restore_configuration` is, on whichever thread runs it. */
  datatype RestorePc =
    | WantLock
    | HaveLock
    | Take
    | PutBack(owed: Debt)
    | Release
    | Unlock

  datatype Pc =
    | Idle                                                  // caller between calls
    | Turning(turn: TurnPc)
    | Stopping                                              // caller in `interrupt`, about to send Done
    | Listening                                             // events loop
    | Waiting                                               // turn thread, for the prompt's reply
    | Polling                                               // teardown worker, for the turn to settle
    | Restoring(at: RestorePc)
    | Killing                                               // teardown worker after its restore
    | Reporting                                             // events loop or turn thread, about to send Done
    | Finished

  datatype Thread = Thread(role: Role, pc: Pc)

  /** What never changes after a session is opened. */
  datatype Spec = Spec(sel: Selection, wanted: Wanted, cap: Option<nat>, opening: Ladder)

  /** The atomics, the locked list and the history counters of one session. */
  datatype Cells = Cells(
    done: bool,
    hasLease: bool,
    overwritten: Debt,
    lock: Option<nat>,
    ingressFailed: bool,
    interrupted: bool,
    dropped: bool,
    killed: bool,
    begun: nat,
    dones: nat)

  datatype Session = Session(spec: Spec, c: Cells, threads: seq<Thread>)

  /**
   What all sessions share, and two histories: `lost`, the keys of restore
   writes that did not reach the store, and `stray`, the keys changed by a
   write whose session had not recorded them.
   */
  datatype World = World(lease: bool, store: Store, lost: set<Key>, stray: set<Key>)

  datatype State = State(w: World, sessions: seq<Session>)

  datatype Step =
    | Open(spec: Spec)
    | Latch(i: nat)
    | BeginTurn(i: nat)
    | Interrupt(i: nat)
    | Drop(i: nat)
    | Run(i: nat, t: nat, yes: bool, reply: Ladder)

  function Init(store: Store): State {
    State(World(false, store, {}, {}), [])
  }

  function Opened(spec: Spec): Session {
    Session(spec, Cells(true, false, [], None, false, false, false, false, 0, 0),
            [Thread(Caller, Idle), Thread(Events, Listening)])
  }

  /** `send_done`: only the swap that finds `done` false emits `Done`. */
  function SendDone(c: Cells): Cells {
    if c.done then c else c.(done := true, dones := c.dones + 1)
  }

  function AfterRestore(role: Role): Pc {
    match role
    case Caller => Idle
    case Events => Reporting
    case Turn => Reporting
    case Worker => Killing
  }

  function AfterStage(stage: Stage, ladder: Ladder): TurnPc {
    if NextStage(stage).Ready? then Prompting else Configure(NextStage(stage), ladder)
  }

  /** A configuration write reaches the store. */
  function Landed(c: Cells, w: World, id: Key, value: Value): World {
    var undoable := Owed(c.overwritten, id) || (id in w.store && w.store[id] == value);
    w.(store := w.store[id := value], stray := if undoable then w.stray else w.stray + {id})
  }

  /** Where one step takes its thread, and what it leaves in the session's cells and in the shared world. */
  datatype Effect = Blocked | Effect(pc: Pc, c: Cells, w: World)

  /** `send_user_message` on the caller's thread, after its check of `done`. */
  function AdvanceTurn(spec: Spec, c: Cells, w: World, at: TurnPc, yes: bool, reply: Ladder): Effect {
    match at
    case Checked =>
      if w.lease then Effect(Idle, c, w) else Effect(Turning(Taken), c, w.(lease := true))
    case Taken =>
      Effect(Turning(Configure(Model, spec.opening)), c.(hasLease := true), w)
    case Configure(stage, ladder) =>
      (match PlanStage(spec.sel, spec.wanted, stage, ladder)
       case Skip => Effect(Turning(AfterStage(stage, ladder)), c, w)
       case Refuse => Effect(Restoring(WantLock), c, w)
       case Write(id, value) =>
         Effect(Turning(Landing(stage, ladder, id, value)), c.(overwritten := Record(c.overwritten, ladder, id)), w))
    case Landing(stage, ladder, id, value) =>
      if yes && c.killed then Blocked
      else Effect(Turning(Replying(stage, ladder)), c, if yes then Landed(c, w, id, value) else w)
    case Replying(stage, ladder) =>
      if yes then Effect(Turning(AfterStage(stage, if spec.sel.LiveOption? then reply else ladder)), c, w)
      else Effect(Restoring(WantLock), c, w)
    case Prompting =>
      if !yes then Effect(Restoring(WantLock), c, w)
      else if c.ingressFailed || c.killed then Blocked
      else Effect(Turning(Marking), c, w)
    case Marking =>
      Effect(Turning(Spawning), c.(done := false, begun := c.begun + 1), w)
    case Spawning => Effect(Idle, c, w)
  }

  /** `restore_configuration`, on whichever thread `t` runs it. */
  function AdvanceRestore(c: Cells, w: World, t: nat, role: Role, at: RestorePc, yes: bool): Effect {
    match at
    case WantLock =>
      if c.lock.Some? then Blocked else Effect(Restoring(HaveLock), c.(lock := Some(t)), w)
    case HaveLock =>
      if c.hasLease then Effect(Restoring(Take), c.(hasLease := false), w) else Effect(Restoring(Unlock), c, w)
    case Take =>
      Effect(Restoring(PutBack(RestoreWrites(c.overwritten))), c.(overwritten := []), w)
    case PutBack(owed) =>
      if owed == [] then Effect(Restoring(Release), c, w)
      else if !yes then Effect(Restoring(PutBack(owed[1..])), c, w.(lost := w.lost + {owed[0].0}))
      else if c.killed then Blocked
      else Effect(Restoring(PutBack(owed[1..])), c, w.(store := w.store[owed[0].0 := owed[0].1]))
    case Release => Effect(Restoring(Unlock), c, w.(lease := false))
    case Unlock => Effect(AfterRestore(role), c.(lock := None), w)
  }

  /** `interrupt`'s own `Done`, the events loop, the turn thread and the teardown worker around their restore. */
  function AdvanceOther(c: Cells, w: World, pc: Pc): Effect {
    match pc
    case Stopping => Effect(Idle, SendDone(c), w)
    case Listening =>
      if !c.ingressFailed then Blocked else Effect(if c.done then Finished else Restoring(WantLock), c, w)
    case Waiting => Effect(Restoring(WantLock), c, w)
    case Polling => Effect(Restoring(WantLock), c, w)
    case Killing => Effect(Finished, c.(killed := true), w)
    case Reporting => Effect(Finished, SendDone(c), w)
    case _ => Blocked
  }

  /**
   The next step of thread `t`. `yes` is what the environment decides where
   the source does not: whether a write lands, a reply is good, a prompt is
   accepted. `reply` is the ladder a good configuration reply states.
   */
  function Advance(spec: Spec, c: Cells, w: World, t: nat, th: Thread, yes: bool, reply: Ladder): Effect {
    match th.pc
    case Turning(at) => AdvanceTurn(spec, c, w, at, yes, reply)
    case Restoring(at) => AdvanceRestore(c, w, t, th.role, at, yes)
    case _ => AdvanceOther(c, w, th.pc)
  }

  /** The session once thread `t` has taken the step `e`; an accepted prompt's thread is spawned with it. */
  function Moved(x: Session, t: nat, pc: Pc, c: Cells): Session
    requires t < |x.threads|
  {
    Session(x.spec, c,
            x.threads[t := x.threads[t].(pc := pc)] +
            (if x.threads[t].pc == Turning(Spawning) then [Thread(Turn, Waiting)] else []))
  }

  function WithWorker(x: Session, pc: Pc, c: Cells): Session
    requires |x.threads| > 0
  {
    Session(x.spec, c, x.threads[0 := x.threads[0].(pc := pc)] + [Thread(Worker, Polling)])
  }

  function Put(s: State, i: nat, x: Session): State
    requires i < |s.sessions|
  {
    s.(sessions := s.sessions[i := x])
  }

  predicate CallerIdle(x: Session) {
    |x.threads| > 0 && x.threads[0].pc.Idle?
  }

  /** A turn may begin: nothing is running and the turn cap, at least one, is not reached. */
  predicate MayBegin(x: Session) {
    CallerIdle(x) && x.c.done
    && (x.spec.cap.Some? ==> x.c.begun < if x.spec.cap.value == 0 then 1 else x.spec.cap.value)
  }

  /** The state after `step`, or `None` where the step cannot be taken. */
  function Do(s: State, step: Step): Option<State> {
    match step
    case Open(spec) => Some(s.(sessions := s.sessions + [Opened(spec)]))
    case Latch(i) =>
      if i >= |s.sessions| then None
      else Some(Put(s, i, s.sessions[i].(c := s.sessions[i].c.(ingressFailed := true))))
    case BeginTurn(i) =>
      if i >= |s.sessions| || !MayBegin(s.sessions[i]) then None
      else Some(Put(s, i, Moved(s.sessions[i], 0, Turning(Checked), s.sessions[i].c)))
    case Interrupt(i) =>
      if i >= |s.sessions| || !CallerIdle(s.sessions[i]) then None
      else Some(Put(s, i, WithWorker(s.sessions[i], Stopping, s.sessions[i].c.(interrupted := true))))
    case Drop(i) =>
      if i >= |s.sessions| || !CallerIdle(s.sessions[i]) then None
      else Some(Put(s, i, WithWorker(s.sessions[i], Finished, s.sessions[i].c.(dropped := true))))
    case Run(i, t, yes, reply) =>
      if i >= |s.sessions| || t >= |s.sessions[i].threads| then None
      else
        var x := s.sessions[i];
        var e := Advance(x.spec, x.c, s.w, t, x.threads[t], yes, reply);
        if e.Blocked? then None else Some(Put(s.(w := e.w), i, Moved(x, t, e.pc, e.c)))
  }

  /** The state a list of steps leads to, or `None` if one of them cannot be taken. */
  function Play(s: State, steps: seq<Step>): Option<State>
    decreases |steps|
  {
    if steps == [] then Some(s)
    else
      var p := Play(s, steps[..|steps| - 1]);
      if p.None? then None else Do(p.value, steps[|steps| - 1])
  }
}
