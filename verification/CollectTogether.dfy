/**
 Any number of collectors on one directory at the same time. Each durable
 action of each process is one step; any process may move next, die at any
 moment, or be started anew. What holds the attempts together is only that
 the manifest, a journal and a status are each created exclusively.
 */
module CollectTogether {
  import opened Wrappers
  import opened Collect

  /**
   The directory, and three histories: which process created the manifest,
   which created each journal, and which made each launch.
   */
  datatype Dir = Dir(
    manifest: Manifest,
    journals: map<nat, seq<int>>,
    statuses: map<nat, StatusFile>,
    launches: seq<Launch>,
    author: Option<nat>,
    owner: map<nat, nat>,
    makers: seq<nat>)

  /** What a process does next. */
  datatype Pc =
    | Looking                                     // for a manifest
    | ReadingManifest
    | CreatingManifest
    | WritingManifest
    | AtGate(g: nat)                              // checks the gate and looks for its status
    | Opening(g: nat)                             // found no status, creates the journal
    | Launching(g: nat, n: nat)
    | Logging(g: nat, n: nat, code: int)
    | CreatingStatus(g: nat, code: int)
    | WritingStatus(g: nat, code: int)
    | Judging(g: nat)
    | Over

  datatype Process = Process(plan: Plan, pc: Pc)

  datatype State = State(d: Dir, processes: seq<Process>)

  /** `yes` is whether a check outside the directory passes, `code` the exit of an attempt. */
  datatype Step = Start(plan: Plan) | Crash(p: nat) | Run(p: nat, yes: bool, code: int)

  const EMPTY := Dir(NoManifest, map[], map[], [], None, map[], [])

  // ---- the steps ----

  function Appended(journals: map<nat, seq<int>>, g: nat, code: int): map<nat, seq<int>> {
    journals[g := (if g in journals then journals[g] else []) + [code]]
  }

  /** One durable action of process `p`, or one look at the directory. */
  function Move(d: Dir, p: nat, x: Process, yes: bool, code: int): (Dir, Pc) {
    match x.pc
    case Looking => (d, if d.manifest.NoManifest? then CreatingManifest else ReadingManifest)
    case ReadingManifest => (d, if d.manifest == Manifest(x.plan) then AtGate(0) else Over)
    case CreatingManifest =>
      if d.manifest.NoManifest? then (d.(manifest := PartManifest, author := Some(p)), WritingManifest) else (d, Over)
    case WritingManifest => (d.(manifest := Manifest(x.plan)), AtGate(0))
    case AtGate(g) =>
      (d, if g >= |x.plan.gates| || !yes then Over else if g in d.statuses then Judging(g) else Opening(g))
    case Opening(g) =>
      if g in d.journals then (d, Over)
      else (d.(journals := d.journals[g := []], owner := d.owner[g := p]), Launching(g, 0))
    case Launching(g, n) =>
      if g >= |x.plan.gates| || x.plan.gates[g].entries == 0 then (d, Over)
      else if n >= x.plan.gates[g].entries then (d, CreatingStatus(g, 0))
      else (d.(launches := d.launches + [Launch(g, n, code)], makers := d.makers + [p]), Logging(g, n, code))
    case Logging(g, n, exit) =>
      (d.(journals := Appended(d.journals, g, exit)),
       if exit == 0 then Launching(g, n + 1) else CreatingStatus(g, exit))
    case CreatingStatus(g, exit) =>
      if g in d.statuses then (d, Over)
      else (d.(statuses := d.statuses[g := PartStatus]), WritingStatus(g, exit))
    case WritingStatus(g, exit) =>
      (d.(statuses := d.statuses[g := Status(exit)]), if exit == 0 then Judging(g) else Over)
    case Judging(g) =>
      (d, if g in d.statuses && d.statuses[g].Status? && yes then AtGate(g + 1) else Over)
    case Over => (d, Over)
  }

  /** The state after `step`; a step of a process that was never started changes nothing. */
  function Do(s: State, step: Step): State {
    match step
    case Start(plan) => s.(processes := s.processes + [Process(plan, Looking)])
    case Crash(p) =>
      if p >= |s.processes| then s else s.(processes := s.processes[p := s.processes[p].(pc := Over)])
    case Run(p, yes, code) =>
      if p >= |s.processes| then s
      else
        var x := s.processes[p];
        var (d, pc) := Move(s.d, p, x, yes, code);
        State(d, s.processes[p := x.(pc := pc)])
  }

  function Play(steps: seq<Step>): State {
    if steps == [] then State(EMPTY, []) else Do(Play(steps[..|steps| - 1]), steps[|steps| - 1])
  }

  // ---- the invariant ----

  /** Between the creation of a gate's journal and the end of its status. */
  predicate Working(pc: Pc) {
    pc.Launching? || pc.Logging? || pc.CreatingStatus? || pc.WritingStatus?
  }

  ghost predicate Before(d: Dir, g: nat) {
    forall h :: 0 <= h < g ==> h in d.statuses && d.statuses[h].Status?
  }

  ghost predicate Done(d: Dir, plan: Plan, g: nat, code: int)
    requires g < |plan.gates|
  {
    g in d.journals && Closed(d.journals[g], ExitsOf(d.launches, g), code, plan.gates[g].entries)
  }

  /** What a process at work on gate `g` relies on. */
  ghost predicate WorkOk(d: Dir, plan: Plan, pc: Pc)
    requires Working(pc) && pc.g < |plan.gates|
  {
    var g := pc.g;
    match pc
    case Launching(_, n) => n <= plan.gates[g].entries && Running(g, n, d.journals, d.statuses, d.launches)
    case Logging(_, n, code) =>
      && n < plan.gates[g].entries && d.launches != [] && d.launches[|d.launches| - 1] == Launch(g, n, code)
      && Running(g, n, d.journals, d.statuses, d.launches[..|d.launches| - 1])
    case CreatingStatus(_, code) => g !in d.statuses && Done(d, plan, g, code)
    case WritingStatus(_, code) => g in d.statuses && d.statuses[g] == PartStatus && Done(d, plan, g, code)
  }

  ghost predicate ProcessOk(d: Dir, p: nat, x: Process) {
    match x.pc
    case Looking => true
    case ReadingManifest => true
    case CreatingManifest => true
    case Over => true
    case WritingManifest => d.manifest.PartManifest? && d.author == Some(p)
    case AtGate(g) => d.manifest == Manifest(x.plan) && Before(d, g)
    case Opening(g) => d.manifest == Manifest(x.plan) && Before(d, g) && g < |x.plan.gates|
    case Judging(g) => d.manifest == Manifest(x.plan) && Before(d, g) && g < |x.plan.gates| && g in d.statuses
    case _ =>
      && d.manifest == Manifest(x.plan) && x.pc.g < |x.plan.gates|
      && x.pc.g in d.owner && d.owner[x.pc.g] == p && WorkOk(d, x.plan, x.pc)
  }

  /** The directory keeps the discipline, and each gate's launches are made by the process that owns its journal. */
  ghost predicate DirOk(d: Dir) {
    && Disciplined(d.manifest, d.journals, d.statuses, d.launches)
    && d.owner.Keys == d.journals.Keys && |d.makers| == |d.launches|
    && forall i :: 0 <= i < |d.makers| ==> d.launches[i].gate in d.owner && d.makers[i] == d.owner[d.launches[i].gate]
  }

  ghost predicate Inv(s: State) {
    DirOk(s.d) && forall p :: 0 <= p < |s.processes| ==> ProcessOk(s.d, p, s.processes[p])
  }

  // ---- one process at work ----

  /** A gate at work has a journal and no whole status. */
  lemma {:induction false} AtWork(d: Dir, p: nat, x: Process)
    requires DirOk(d) && ProcessOk(d, p, x) && Working(x.pc)
    ensures d.manifest == Manifest(x.plan) && x.pc.g < |x.plan.gates| && x.pc.g in d.journals
    ensures !(x.pc.g in d.statuses && d.statuses[x.pc.g].Status?) && Before(d, x.pc.g)
  {
    BeforeBegun(x.plan, d.journals, d.statuses, d.launches, x.pc.g);
  }

  /** While one process is at work on a gate, no other is, and none can begin. */
  lemma {:induction false} OneAtWork(s: State, p: nat, q: nat)
    requires Inv(s) && p < |s.processes| && q < |s.processes| && p != q && Working(s.processes[p].pc)
    ensures !Working(s.processes[q].pc)
    ensures s.processes[q].pc.Opening? ==> s.processes[q].pc.g in s.d.journals
  {
    var x, y, d := s.processes[p], s.processes[q], s.d;
    AtWork(d, p, x);
    if Working(y.pc) {
      AtWork(d, q, y);
    }
    if y.pc.Opening? && y.pc.g < x.pc.g {
      assert GateKept(y.pc.g, y.plan.gates[y.pc.g].entries, d.journals, d.statuses, d.launches);
    }
  }

  /** So while one process is at work on a gate, no step of another changes the directory. */
  lemma {:induction false} OthersStandStill(s: State, p: nat, q: nat, yes: bool, code: int)
    requires Inv(s) && p < |s.processes| && q < |s.processes| && p != q && Working(s.processes[p].pc)
    ensures Do(s, Run(q, yes, code)).d == s.d
  {
    OneAtWork(s, p, q);
    AtWork(s.d, p, s.processes[p]);
  }

  // ---- each step keeps the invariant ----

  /** A whole manifest is kept, a status is kept, and so is its being whole. */
  ghost predicate Grown(d: Dir, d': Dir) {
    && (d.manifest.Manifest? ==> d'.manifest == d.manifest)
    && forall g :: g in d.statuses ==> g in d'.statuses && (d.statuses[g].Status? ==> d'.statuses[g].Status?)
  }

  lemma {:induction false} StillOk(d: Dir, d': Dir, p: nat, x: Process)
    requires ProcessOk(d, p, x) && !Working(x.pc) && Grown(d, d')
    requires x.pc.WritingManifest? ==> d'.manifest == d.manifest && d'.author == d.author
    ensures ProcessOk(d', p, x)
  {
  }

  /** What process `p` leaves when it moves: a good directory, itself in order, and nothing others rely on undone. */
  ghost predicate MovesOk(d: Dir, p: nat, x: Process, yes: bool, code: int) {
    var (d', pc) := Move(d, p, x, yes, code); DirOk(d') && ProcessOk(d', p, x.(pc := pc)) && Grown(d, d')
  }

  lemma {:induction false} ManifestMoves(d: Dir, p: nat, x: Process, yes: bool, code: int)
    requires DirOk(d) && ProcessOk(d, p, x) && (x.pc.CreatingManifest? || x.pc.WritingManifest?)
    ensures MovesOk(d, p, x, yes, code)
  {
    forall g | 0 <= g < |x.plan.gates| && d.journals == map[] && d.statuses == map[] && d.launches == []
      ensures GateKept(g, x.plan.gates[g].entries, d.journals, d.statuses, d.launches)
    {
    }
  }

  lemma {:induction false} OpeningMoves(d: Dir, p: nat, x: Process, yes: bool, code: int)
    requires DirOk(d) && ProcessOk(d, p, x) && x.pc.Opening?
    ensures MovesOk(d, p, x, yes, code)
  {
    if x.pc.g !in d.journals {
      JournalOpened(x.plan, d.journals, d.statuses, d.launches, x.pc.g);
    }
  }

  lemma {:induction false} LaunchMoves(d: Dir, p: nat, x: Process, yes: bool, code: int)
    requires DirOk(d) && ProcessOk(d, p, x) && x.pc.Launching? && x.pc.n < x.plan.gates[x.pc.g].entries
    ensures MovesOk(d, p, x, yes, code)
  {
    var g, n := x.pc.g, x.pc.n;
    var d' := d.(launches := d.launches + [Launch(g, n, code)], makers := d.makers + [p]);
    Launched(x.plan, d.journals, d.statuses, d.launches, g, n, code);
    assert d'.launches[..|d.launches|] == d.launches;
    assert WorkOk(d', x.plan, Logging(g, n, code));
    assert DirOk(d');
  }

  lemma {:induction false} LastEntryMoves(d: Dir, p: nat, x: Process, yes: bool, code: int)
    requires DirOk(d) && ProcessOk(d, p, x) && x.pc.Launching? && x.pc.n >= x.plan.gates[x.pc.g].entries
    ensures MovesOk(d, p, x, yes, code)
  {
    if x.pc.n > 0 {
      var before, last := d.launches[..|d.launches| - 1], d.launches[|d.launches| - 1];
      assert d.launches == before + [last];
      ExitsNext(before, last, x.pc.g);
      assert WorkOk(d, x.plan, CreatingStatus(x.pc.g, 0));
    }
  }

  /** A journal that exists grows, and the discipline is kept by it. */
  lemma {:induction false} GrownJournal(d: Dir, g: nat, exit: int)
    requires DirOk(d) && g in d.journals
    requires Disciplined(d.manifest, Appended(d.journals, g, exit), d.statuses, d.launches)
    ensures DirOk(d.(journals := Appended(d.journals, g, exit)))
  {
    assert Appended(d.journals, g, exit).Keys == d.journals.Keys;
  }

  lemma {:induction false} LoggingMoves(d: Dir, p: nat, x: Process, yes: bool, code: int)
    requires DirOk(d) && ProcessOk(d, p, x) && x.pc.Logging?
    ensures MovesOk(d, p, x, yes, code)
  {
    var g, n, exit, before := x.pc.g, x.pc.n, x.pc.code, d.launches[..|d.launches| - 1];
    assert d.launches == before + [Launch(g, n, exit)];
    Logged(x.plan, d.journals, d.statuses, before, g, n, exit);
    GrownJournal(d, g, exit);
    var d' := d.(journals := Appended(d.journals, g, exit));
    assert d'.journals[g][n] == exit;
    assert WorkOk(d', x.plan, if exit == 0 then Launching(g, n + 1) else CreatingStatus(g, exit));
  }

  lemma {:induction false} StatusMoves(d: Dir, p: nat, x: Process, yes: bool, code: int)
    requires DirOk(d) && ProcessOk(d, p, x) && (x.pc.CreatingStatus? || x.pc.WritingStatus?)
    ensures MovesOk(d, p, x, yes, code)
  {
    AtWork(d, p, x);
    if x.pc.CreatingStatus? {
      StatusCreated(x.plan, d.journals, d.statuses, d.launches, x.pc.g);
    } else {
      StatusWritten(x.plan, d.journals, d.statuses, d.launches, x.pc.g, x.pc.code);
    }
  }

  lemma {:induction false} Looks(d: Dir, p: nat, x: Process, yes: bool, code: int)
    requires DirOk(d) && ProcessOk(d, p, x)
    requires !Working(x.pc) && !x.pc.Opening? && !x.pc.CreatingManifest? && !x.pc.WritingManifest?
    ensures MovesOk(d, p, x, yes, code)
  {
  }

  lemma {:induction false} Moves(d: Dir, p: nat, x: Process, yes: bool, code: int)
    requires DirOk(d) && ProcessOk(d, p, x)
    ensures MovesOk(d, p, x, yes, code)
  {
    match x.pc
    case CreatingManifest => ManifestMoves(d, p, x, yes, code);
    case WritingManifest => ManifestMoves(d, p, x, yes, code);
    case Opening(_) => OpeningMoves(d, p, x, yes, code);
    case Launching(g, n) =>
      if n < x.plan.gates[g].entries {
        LaunchMoves(d, p, x, yes, code);
      } else {
        LastEntryMoves(d, p, x, yes, code);
      }
    case Logging(_, _, _) => LoggingMoves(d, p, x, yes, code);
    case CreatingStatus(_, _) => StatusMoves(d, p, x, yes, code);
    case WritingStatus(_, _) => StatusMoves(d, p, x, yes, code);
    case _ => Looks(d, p, x, yes, code);
  }

  lemma {:induction false} StepKeeps(s: State, step: Step)
    requires Inv(s)
    ensures Inv(Do(s, step))
  {
    if step.Run? && step.p < |s.processes| {
      var p, s' := step.p, Do(s, step);
      Moves(s.d, p, s.processes[p], step.yes, step.code);
      forall q | 0 <= q < |s.processes| ensures ProcessOk(s'.d, q, s'.processes[q]) {
        if q != p {
          if Working(s.processes[q].pc) {
            OthersStandStill(s, q, p, step.yes, step.code);
          } else {
            StillOk(s.d, s'.d, q, s.processes[q]);
          }
        }
      }
    }
  }

  lemma {:induction false} EveryStateIsOk(steps: seq<Step>)
    ensures Inv(Play(steps))
  {
    if steps != [] {
      EveryStateIsOk(steps[..|steps| - 1]);
      StepKeeps(Play(steps[..|steps| - 1]), steps[|steps| - 1]);
    }
  }

  // ---- the theorems ----

  /**
   Whatever the interleaving and whoever dies: no entry of any gate is
   attempted twice, the attempts are in order with none after a nonzero exit
   in its gate, and all attempts of one gate are made by one process.
   */
  lemma {:induction false} TogetherAtMostOnce(steps: seq<Step>)
    ensures var d := Play(steps).d;
      && InOrder(d.launches) && |d.makers| == |d.launches|
      && forall i, j :: 0 <= i < j < |d.launches| ==>
           && (d.launches[i].gate, d.launches[i].ordinal) != (d.launches[j].gate, d.launches[j].ordinal)
           && (d.launches[i].gate == d.launches[j].gate ==>
                 d.launches[i].code == 0 && d.launches[i].ordinal < d.launches[j].ordinal && d.makers[i] == d.makers[j])
  {
    EveryStateIsOk(steps);
    var d := Play(steps).d;
    AttemptedAtMostOnce(d.manifest, d.journals, d.statuses, d.launches);
  }

  /**
   At most one process is at work between a journal's creation and its
   status, no step of another changes anything meanwhile, and its own
   exclusive creation of the status never fails.
   */
  lemma {:induction false} OneCollectorWorks(steps: seq<Step>, p: nat, q: nat, yes: bool, code: int)
    requires p < |Play(steps).processes| && Working(Play(steps).processes[p].pc)
    requires q < |Play(steps).processes| && p != q
    ensures var s := Play(steps); !Working(s.processes[q].pc) && Do(s, Run(q, yes, code)).d == s.d
    ensures var s := Play(steps); s.processes[p].pc.CreatingStatus? ==> s.processes[p].pc.g !in s.d.statuses
  {
    EveryStateIsOk(steps);
    OneAtWork(Play(steps), p, q);
    OthersStandStill(Play(steps), p, q, yes, code);
  }

  /** A gate was begun and not finished, and no process is at work any more. */
  ghost predicate Shut(s: State, g: nat) {
    && g in s.d.journals && !(g in s.d.statuses && s.d.statuses[g].Status?)
    && forall p :: 0 <= p < |s.processes| ==> !Working(s.processes[p].pc)
  }

  lemma {:induction false} ShutStep(s: State, step: Step, g: nat)
    requires Inv(s) && Shut(s, g)
    ensures Do(s, step).d == s.d && Shut(Do(s, step), g)
  {
    if step.Run? && step.p < |s.processes| {
      var x, d := s.processes[step.p], s.d;
      BeforeBegun(d.manifest.plan, d.journals, d.statuses, d.launches, g);
      if x.pc.Opening? && x.pc.g < g {
        assert GateKept(x.pc.g, x.plan.gates[x.pc.g].entries, d.journals, d.statuses, d.launches);
      }
    }
  }

  /** A gate whose collector died stays shut: no process, running or started later, changes the directory again. */
  lemma {:induction false} AbandonedForGood(steps: seq<Step>, g: nat, more: seq<Step>)
    requires Shut(Play(steps), g)
    ensures Play(steps + more).d == Play(steps).d && Shut(Play(steps + more), g)
    decreases |more|
  {
    if more == [] {
      assert steps + more == steps;
    } else {
      var before := more[..|more| - 1];
      AbandonedForGood(steps, g, before);
      EveryStateIsOk(steps + before);
      ShutStep(Play(steps + before), more[|more| - 1], g);
      assert (steps + more)[..|steps + more| - 1] == steps + before;
    }
  }
}
