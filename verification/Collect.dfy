/**
 `collect`: the crash-tolerant collector. Its memory is a directory of files
 that are only ever created, never overwritten: a manifest, and for each gate
 an attempt journal and a status. The process may die between any two of its
 durable actions, and may be started again any number of times.
 */
module Collect {
  import opened Wrappers
  import Permutations

  /** A gate of the plan, with the number of entries its frozen pins order. */
  datatype Gate = Gate(pins: nat, entries: nat)

  datatype Plan = Plan(id: string, gates: seq<Gate>)

  /** A file that is absent, created and not completely written, or whole. */
  datatype Manifest = NoManifest | PartManifest | Manifest(plan: Plan)

  datatype StatusFile = PartStatus | Status(code: int)

  /** One started attempt; `code` is its exit, an exception counting as 2. */
  datatype Launch = Launch(gate: nat, ordinal: nat, code: int)

  /** What the outside decides during one call. `life` is how many durable actions the process lives for. */
  datatype World = World(life: nat, ready: nat -> bool, exits: (nat, nat) -> int, verdicts: nat -> Option<int>)

  datatype Outcome = Crashed | Raised | Exit(code: int)

  // ---- the discipline ----

  /** Within a gate: entry 0 first, each further one right after its predecessor exited 0; gates in ascending order. */
  predicate InOrder(launches: seq<Launch>) {
    forall i :: 0 <= i < |launches| ==> Follows(launches, i)
  }

  predicate Follows(launches: seq<Launch>, i: nat)
    requires i < |launches|
  {
    var l := launches[i];
    if l.ordinal == 0 then i == 0 || launches[i - 1].gate < l.gate
    else i > 0 && launches[i - 1] == Launch(l.gate, l.ordinal - 1, 0)
  }

  /** The exits of one gate's attempts, in order. */
  function ExitsOf(launches: seq<Launch>, gate: nat): seq<int> {
    if launches == [] then []
    else
      var last := launches[|launches| - 1];
      ExitsOf(launches[..|launches| - 1], gate) + (if last.gate == gate then [last.code] else [])
  }

  lemma {:induction false} ExitsNext(launches: seq<Launch>, l: Launch, gate: nat)
    ensures ExitsOf(launches + [l], gate) == ExitsOf(launches, gate) + (if l.gate == gate then [l.code] else [])
  {
    assert (launches + [l])[..|launches|] == launches;
  }

  /** The journal holds every exit, except perhaps the last. */
  predicate Journaled(journal: seq<int>, exits: seq<int>) {
    journal == exits || (exits != [] && journal == exits[..|exits| - 1])
  }

  /** A whole status: the journal is complete, the code is the last exit, and 0 means every entry was run. */
  predicate Closed(journal: seq<int>, exits: seq<int>, code: int, entries: nat) {
    journal == exits && exits != [] && exits[|exits| - 1] == code && (code == 0 ==> |exits| == entries)
  }

  predicate GateKept(gate: nat, entries: nat, journals: map<nat, seq<int>>, statuses: map<nat, StatusFile>,
                     launches: seq<Launch>) {
    var exits := ExitsOf(launches, gate);
    && (gate !in journals ==> gate !in statuses && exits == [])
    && (gate in journals ==>
          && |exits| <= entries && Journaled(journals[gate], exits)
          && (forall h :: 0 <= h < gate ==> h in statuses && statuses[h].Status?))
    && (gate in journals && gate in statuses ==>
          journals[gate] == exits && (statuses[gate].Status? ==>
                                      Closed(journals[gate], exits, statuses[gate].code, entries)))
  }

  /** Every attempt is one of the plan's, in a gate that was begun. */
  predicate Planned(plan: Plan, journals: map<nat, seq<int>>, launches: seq<Launch>) {
    forall l :: l in launches ==>
      l.gate in journals && l.gate < |plan.gates| && l.ordinal < plan.gates[l.gate].entries
  }

  /** What every moment of every call keeps. */
  ghost predicate Disciplined(manifest: Manifest, journals: map<nat, seq<int>>, statuses: map<nat, StatusFile>,
                              launches: seq<Launch>) {
    && InOrder(launches)
    && (!manifest.Manifest? ==> journals == map[] && statuses == map[] && launches == [])
    && (manifest.Manifest? ==>
          && (forall g :: g in journals || g in statuses ==> g < |manifest.plan.gates|)
          && Planned(manifest.plan, journals, launches)
          && (forall g :: 0 <= g < |manifest.plan.gates| ==>
                GateKept(g, manifest.plan.gates[g].entries, journals, statuses, launches)))
  }

  /** The exit code of a finished collection: the first of 2, 101, 1, 75 among the verdicts. */
  function Overall(verdicts: seq<int>): int {
    if 2 in verdicts then 2 else if 101 in verdicts then 101 else if 1 in verdicts then 1 else if 75 in verdicts then 75
    else if verdicts == [] then 2 else 0
  }

  // ---- what a call has to do ----

  /** The first `n` attempts of the gate exit 0. */
  predicate AllZero(exits: (nat, nat) -> int, g: nat, n: nat) {
    forall m: nat :: m < n ==> exits(g, m) == 0
  }

  /** An attempt the plan asks for once its gate is opened: no earlier one of the gate exits nonzero. */
  predicate Due(plan: Plan, exits: (nat, nat) -> int, l: Launch) {
    && l.gate < |plan.gates| && l.ordinal < plan.gates[l.gate].entries
    && l.code == exits(l.gate, l.ordinal) && AllZero(exits, l.gate, l.ordinal)
  }

  /** The gate's attempts end with this code: 0 if all exit 0, else the first that does not. */
  predicate EndsWith(exits: (nat, nat) -> int, g: nat, entries: nat, code: int) {
    if code == 0 then entries > 0 && AllZero(exits, g, entries)
    else exists n: nat :: n < entries && exits(g, n) == code && AllZero(exits, g, n)
  }

  /** A gate that neither has a status nor was ever begun. */
  predicate Untouched(journals: map<nat, seq<int>>, statuses: map<nat, StatusFile>, g: nat) {
    g !in statuses && g !in journals
  }

  /** The call gets past the gate: by the whole status it finds, or by attempts that all exit 0. */
  predicate Passes(plan: Plan, world: World, journals: map<nat, seq<int>>, statuses: map<nat, StatusFile>, g: nat)
    requires g < |plan.gates|
  {
    && world.ready(g) && world.verdicts(g).Some?
    && (if g in statuses then statuses[g].Status?
        else g !in journals && EndsWith(world.exits, g, plan.gates[g].entries, 0))
  }

  /** The call gets to the gate, finds it ready and untouched, and opens it. */
  predicate Opens(plan: Plan, world: World, journals: map<nat, seq<int>>, statuses: map<nat, StatusFile>, g: nat) {
    && g < |plan.gates| && world.ready(g) && Untouched(journals, statuses, g)
    && forall h: nat :: h < g ==> Passes(plan, world, journals, statuses, h)
  }

  /**
   A call that ends at a gate exits with its attempts' nonzero code, or with 2
   where that is not 2, 75 or 101; without such a code it raises.
   */
  ghost predicate StopsWith(plan: Plan, world: World, journals: map<nat, seq<int>>, statuses: map<nat, StatusFile>,
                            g: nat, outcome: Outcome)
    requires g < |plan.gates|
  {
    if exists code :: FailsWith(plan, world, journals, statuses, g, code) then
      exists code :: FailsWith(plan, world, journals, statuses, g, code)
                     && outcome == Exit(if code == 2 || code == 75 || code == 101 then code else 2)
    else outcome == Raised
  }

  /** The gate is opened and its attempts end with this nonzero code. */
  predicate FailsWith(plan: Plan, world: World, journals: map<nat, seq<int>>, statuses: map<nat, StatusFile>,
                      g: nat, code: int)
    requires g < |plan.gates|
  {
    && world.ready(g) && Untouched(journals, statuses, g)
    && code != 0 && EndsWith(world.exits, g, plan.gates[g].entries, code)
  }

  /** The verdicts of the first `n` gates. */
  function Verdicts(world: World, n: nat): (r: seq<int>)
    ensures |r| == n
  {
    seq(n, g requires 0 <= g < n => if world.verdicts(g).Some? then world.verdicts(g).value else 2)
  }

  ghost predicate PassedTo(plan: Plan, world: World, journals: map<nat, seq<int>>, statuses: map<nat, StatusFile>,
                           g: nat)
    requires g <= |plan.gates|
  {
    forall h: nat :: h < g ==> Passes(plan, world, journals, statuses, h)
  }

  /** A call that is not cut short gets past the first `at` gates and ends there, or with the verdicts of all. */
  ghost predicate Concludes(plan: Plan, world: World, journals: map<nat, seq<int>>, statuses: map<nat, StatusFile>,
                            at: nat, outcome: Outcome) {
    && at <= |plan.gates| && PassedTo(plan, world, journals, statuses, at)
    && (if at == |plan.gates| then outcome == Exit(Overall(Verdicts(world, at)))
        else !Passes(plan, world, journals, statuses, at)
             && StopsWith(plan, world, journals, statuses, at, outcome))
  }

  /** The statuses a call leaves: those it found, and one for each opened gate with the code its attempts end with. */
  ghost predicate Leaves(plan: Plan, world: World, journals: map<nat, seq<int>>, statuses: map<nat, StatusFile>,
                         statuses': map<nat, StatusFile>) {
    forall g: nat ::
      if g in statuses || !Opens(plan, world, journals, statuses, g) || plan.gates[g].entries == 0 then
        (g in statuses' <==> g in statuses) && (g in statuses ==> statuses'[g] == statuses[g])
      else g in statuses' && statuses'[g].Status?
           && EndsWith(world.exits, g, plan.gates[g].entries, statuses'[g].code)
  }

  /** The durable actions a gate can take: its journal, two for each attempt, and two for its status. */
  function ActionsAt(plan: Plan, g: nat): nat
    requires g < |plan.gates|
  {
    3 + 2 * plan.gates[g].entries
  }

  /** The durable actions of the gates from `g` on. */
  function ActionsFrom(plan: Plan, g: nat): nat
    decreases |plan.gates| - g
  {
    if g >= |plan.gates| then 0 else ActionsAt(plan, g) + ActionsFrom(plan, g + 1)
  }

  /** Every attempt that is due in a gate the call opens. */
  ghost predicate AllMade(made: seq<Launch>, plan: Plan, world: World, journals: map<nat, seq<int>>,
                          statuses: map<nat, StatusFile>) {
    forall l: Launch :: Opens(plan, world, journals, statuses, l.gate) && Due(plan, world.exits, l) ==> l in made
  }

  /** Nothing but attempts that are due in a gate the call opens. */
  ghost predicate OnlyAsDue(made: seq<Launch>, plan: Plan, world: World, journals: map<nat, seq<int>>,
                            statuses: map<nat, StatusFile>) {
    forall l: Launch :: l in made ==> Opens(plan, world, journals, statuses, l.gate) && Due(plan, world.exits, l)
  }

  /** No journal from gate `g` on was created. */
  ghost predicate UntouchedFrom(js: map<nat, seq<int>>, journals: map<nat, seq<int>>, g: nat) {
    forall h: nat :: h >= g ==> (h in journals <==> h in js)
  }

  /** A status that is there stays as it is. */
  predicate Kept(before: map<nat, StatusFile>, after: map<nat, StatusFile>) {
    forall g :: g in before ==> g in after && after[g] == before[g]
  }

  /** Only attempts due in the gate were made. */
  ghost predicate OnlyDue(made: seq<Launch>, plan: Plan, exits: (nat, nat) -> int, g: nat) {
    forall l: Launch :: l in made ==> l.gate == g && Due(plan, exits, l)
  }

  ghost predicate AllDue(made: seq<Launch>, plan: Plan, exits: (nat, nat) -> int, g: nat) {
    forall l: Launch :: l.gate == g && Due(plan, exits, l) ==> l in made
  }

  /** The first `n` attempts of the gate were made. */
  ghost predicate MadeUpTo(made: seq<Launch>, plan: Plan, exits: (nat, nat) -> int, g: nat, n: nat) {
    forall l: Launch :: l in made <==> l.gate == g && l.ordinal < n && Due(plan, exits, l)
  }

  lemma {:induction false} MadeNext(made: seq<Launch>, plan: Plan, exits: (nat, nat) -> int, g: nat, n: nat)
    requires MadeUpTo(made, plan, exits, g, n) && AllZero(exits, g, n) && g < |plan.gates| && n < plan.gates[g].entries
    ensures var made' := made + [Launch(g, n, exits(g, n))];
      && MadeUpTo(made', plan, exits, g, n + 1) && OnlyDue(made, plan, exits, g) && OnlyDue(made', plan, exits, g)
      && (exits(g, n) != 0 ==> AllDue(made', plan, exits, g) && EndsWith(exits, g, plan.gates[g].entries, exits(g, n)))
      && (exits(g, n) == 0 ==> AllZero(exits, g, n + 1))
  {
    assert Due(plan, exits, Launch(g, n, exits(g, n)));
  }

  lemma {:induction false} MadeAll(made: seq<Launch>, plan: Plan, exits: (nat, nat) -> int, g: nat)
    requires g < |plan.gates| && MadeUpTo(made, plan, exits, g, plan.gates[g].entries)
    requires AllZero(exits, g, plan.gates[g].entries)
    ensures OnlyDue(made, plan, exits, g) && AllDue(made, plan, exits, g)
    ensures plan.gates[g].entries > 0 ==> EndsWith(exits, g, plan.gates[g].entries, 0)
  {
  }

  /** The gates before `g` were passed, and what was due in those that were opened was made. */
  ghost predicate MadeBefore(made: seq<Launch>, plan: Plan, world: World, journals: map<nat, seq<int>>,
                             statuses: map<nat, StatusFile>, g: nat) {
    forall l: Launch ::
      l in made <==> l.gate < g && Opens(plan, world, journals, statuses, l.gate) && Due(plan, world.exits, l)
  }

  /** What was made in gate `g`: what is due if it is opened, and nothing else. */
  ghost predicate MadeAt(made: seq<Launch>, plan: Plan, world: World, journals: map<nat, seq<int>>,
                         statuses: map<nat, StatusFile>, g: nat) {
    && OnlyDue(made, plan, world.exits, g)
    && (if world.ready(g) && Untouched(journals, statuses, g) then AllDue(made, plan, world.exits, g) else made == [])
  }

  lemma {:induction false} MadeBeforeNext(made: seq<Launch>, more: seq<Launch>, plan: Plan, world: World,
                                          journals: map<nat, seq<int>>, statuses: map<nat, StatusFile>, g: nat)
    requires g < |plan.gates| && PassedTo(plan, world, journals, statuses, g)
    requires MadeBefore(made, plan, world, journals, statuses, g) && MadeAt(more, plan, world, journals, statuses, g)
    ensures MadeBefore(made + more, plan, world, journals, statuses, g + 1)
  {
    assert Opens(plan, world, journals, statuses, g) <==> world.ready(g) && Untouched(journals, statuses, g);
  }

  /** What a call has made that passes every gate, or stops at the last one it came to. */
  lemma {:induction false} MadeInAll(made: seq<Launch>, plan: Plan, world: World, journals: map<nat, seq<int>>,
                                     statuses: map<nat, StatusFile>, g: nat)
    requires g == |plan.gates| || (g < |plan.gates| && !Passes(plan, world, journals, statuses, g))
    requires MadeBefore(made, plan, world, journals, statuses, if g < |plan.gates| then g + 1 else g)
    ensures AllMade(made, plan, world, journals, statuses)
  {
  }

  /** The gates that were passed have their statuses, and the others are as they were. */
  ghost predicate LeftBefore(plan: Plan, world: World, ss: map<nat, StatusFile>, statuses: map<nat, StatusFile>, g: nat)
    requires g <= |plan.gates|
  {
    && (forall h: nat :: h < g ==> h in statuses && statuses[h].Status?)
    && (forall h: nat :: h >= g || h in ss ==> (h in statuses <==> h in ss) && (h in ss ==> statuses[h] == ss[h]))
    && (forall h: nat :: h < g && h !in ss ==>
          plan.gates[h].entries > 0 && EndsWith(world.exits, h, plan.gates[h].entries, statuses[h].code))
  }

  /** The status gate `g` got, if it was opened. */
  ghost predicate StatusAt(plan: Plan, world: World, js: map<nat, seq<int>>, ss: map<nat, StatusFile>,
                           statuses: map<nat, StatusFile>, g: nat)
    requires g < |plan.gates|
  {
    if world.ready(g) && Untouched(js, ss, g) && plan.gates[g].entries > 0 then
      g in statuses && statuses[g].Status? && EndsWith(world.exits, g, plan.gates[g].entries, statuses[g].code)
    else
      (g in statuses <==> g in ss) && (g in ss ==> statuses[g] == ss[g])
  }

  /** Both directories say the same of gate `g`. */
  predicate AlikeAt(js: map<nat, seq<int>>, ss: map<nat, StatusFile>, journals: map<nat, seq<int>>,
                    statuses: map<nat, StatusFile>, g: nat) {
    && (g in journals <==> g in js) && (g in statuses <==> g in ss) && (g in ss ==> statuses[g] == ss[g])
  }

  /** What a call does at a gate depends on what the directory says of that gate. */
  lemma {:induction false} GateAlike(made: seq<Launch>, plan: Plan, world: World, js: map<nat, seq<int>>,
                                     ss: map<nat, StatusFile>, journals: map<nat, seq<int>>,
                                     statuses: map<nat, StatusFile>, after: map<nat, StatusFile>, g: nat)
    requires g < |plan.gates| && AlikeAt(js, ss, journals, statuses, g)
    ensures Passes(plan, world, journals, statuses, g) <==> Passes(plan, world, js, ss, g)
    ensures MadeAt(made, plan, world, journals, statuses, g) <==> MadeAt(made, plan, world, js, ss, g)
    ensures StatusAt(plan, world, journals, statuses, after, g) <==> StatusAt(plan, world, js, ss, after, g)
  {
  }

  lemma {:induction false} StopAlike(plan: Plan, world: World, js: map<nat, seq<int>>, ss: map<nat, StatusFile>,
                                     journals: map<nat, seq<int>>, statuses: map<nat, StatusFile>, g: nat,
                                     outcome: Outcome)
    requires g < |plan.gates| && AlikeAt(js, ss, journals, statuses, g)
    requires StopsWith(plan, world, journals, statuses, g, outcome)
    ensures StopsWith(plan, world, js, ss, g, outcome)
  {
    assert forall code :: FailsWith(plan, world, journals, statuses, g, code) <==>
                          FailsWith(plan, world, js, ss, g, code);
  }

  lemma {:induction false} LeftBeforeNext(plan: Plan, world: World, js: map<nat, seq<int>>, ss: map<nat, StatusFile>,
                                          before: map<nat, StatusFile>, statuses: map<nat, StatusFile>, g: nat)
    requires g < |plan.gates| && Passes(plan, world, js, ss, g)
    requires PassedTo(plan, world, js, ss, g) && LeftBefore(plan, world, ss, before, g)
    requires StatusAt(plan, world, js, ss, statuses, g)
    requires forall h: nat :: h != g ==> (h in statuses <==> h in before) && (h in before ==> statuses[h] == before[h])
    ensures PassedTo(plan, world, js, ss, g + 1) && LeftBefore(plan, world, ss, statuses, g + 1)
  {
  }

  /** The first `g` gates are passed: what was made, and what they left. */
  ghost predicate Walked(plan: Plan, world: World, js: map<nat, seq<int>>, ss: map<nat, StatusFile>, g: nat,
                         made: seq<Launch>, statuses: map<nat, StatusFile>)
    requires g <= |plan.gates|
  {
    && PassedTo(plan, world, js, ss, g) && LeftBefore(plan, world, ss, statuses, g)
    && MadeBefore(made, plan, world, js, ss, g)
  }

  lemma {:induction false} WalkBegins(plan: Plan, world: World, js: map<nat, seq<int>>, ss: map<nat, StatusFile>)
    ensures Walked(plan, world, js, ss, 0, [], ss) && OnlyAsDue([], plan, world, js, ss)
    ensures Verdicts(world, 0) == []
  {
  }

  lemma {:induction false} VerdictsNext(world: World, n: nat, verdict: int)
    requires world.verdicts(n) == Some(verdict)
    ensures Verdicts(world, n) + [verdict] == Verdicts(world, n + 1)
  {
  }

  lemma {:induction false} WalkedOn(plan: Plan, world: World, js: map<nat, seq<int>>, ss: map<nat, StatusFile>, g: nat,
                                    made: seq<Launch>, more: seq<Launch>, before: map<nat, StatusFile>,
                                    statuses: map<nat, StatusFile>)
    requires g < |plan.gates| && Walked(plan, world, js, ss, g, made, before)
    requires MadeAt(more, plan, world, js, ss, g) && StatusAt(plan, world, js, ss, statuses, g)
    requires forall h: nat :: h != g ==> (h in statuses <==> h in before) && (h in before ==> statuses[h] == before[h])
    requires Passes(plan, world, js, ss, g)
    ensures Walked(plan, world, js, ss, g + 1, made + more, statuses)
  {
    MadeBeforeNext(made, more, plan, world, js, ss, g);
    LeftBeforeNext(plan, world, js, ss, before, statuses, g);
  }

  /** Everything a call that is not cut short has to do. */
  ghost predicate Fulfilled(plan: Plan, world: World, js: map<nat, seq<int>>, ss: map<nat, StatusFile>,
                            made: seq<Launch>, statuses: map<nat, StatusFile>, at: nat, outcome: Outcome) {
    AllMade(made, plan, world, js, ss) && Leaves(plan, world, js, ss, statuses)
    && Concludes(plan, world, js, ss, at, outcome)
  }

  lemma {:induction false} WalkStops(plan: Plan, world: World, js: map<nat, seq<int>>, ss: map<nat, StatusFile>, g: nat,
                                     made: seq<Launch>, more: seq<Launch>, before: map<nat, StatusFile>,
                                     statuses: map<nat, StatusFile>, outcome: Outcome)
    requires g < |plan.gates| && Walked(plan, world, js, ss, g, made, before)
    requires MadeAt(more, plan, world, js, ss, g) && StatusAt(plan, world, js, ss, statuses, g)
    requires forall h: nat :: h != g ==> (h in statuses <==> h in before) && (h in before ==> statuses[h] == before[h])
    requires !Passes(plan, world, js, ss, g) && StopsWith(plan, world, js, ss, g, outcome)
    ensures Fulfilled(plan, world, js, ss, made + more, statuses, g, outcome)
  {
    MadeBeforeNext(made, more, plan, world, js, ss, g);
    MadeInAll(made + more, plan, world, js, ss, g);
    LeavesAtStop(plan, world, js, ss, before, statuses, g);
  }

  lemma {:induction false} WalkEnds(plan: Plan, world: World, js: map<nat, seq<int>>, ss: map<nat, StatusFile>,
                                    made: seq<Launch>, statuses: map<nat, StatusFile>, verdicts: seq<int>)
    requires Walked(plan, world, js, ss, |plan.gates|, made, statuses)
    requires verdicts == Verdicts(world, |plan.gates|)
    ensures Fulfilled(plan, world, js, ss, made, statuses, |plan.gates|, Exit(Overall(verdicts)))
  {
    MadeInAll(made, plan, world, js, ss, |plan.gates|);
    LeavesAtEnd(plan, world, js, ss, statuses, |plan.gates|);
  }

  /** Only what is due in opened gates was made, also where the call is cut short in gate `g`. */
  lemma {:induction false} OnlyOpened(made: seq<Launch>, more: seq<Launch>, plan: Plan, world: World,
                                      js: map<nat, seq<int>>, ss: map<nat, StatusFile>, g: nat)
    requires g < |plan.gates| && PassedTo(plan, world, js, ss, g) && MadeBefore(made, plan, world, js, ss, g)
    requires OnlyDue(more, plan, world.exits, g) && (more != [] ==> world.ready(g) && Untouched(js, ss, g))
    ensures OnlyAsDue(made + more, plan, world, js, ss)
  {
  }

  lemma {:induction false} LeavesAtEnd(plan: Plan, world: World, js: map<nat, seq<int>>, ss: map<nat, StatusFile>,
                                       statuses: map<nat, StatusFile>, g: nat)
    requires g <= |plan.gates| && PassedTo(plan, world, js, ss, g) && LeftBefore(plan, world, ss, statuses, g)
    requires g < |plan.gates| ==> !Passes(plan, world, js, ss, g) && !Opens(plan, world, js, ss, g)
    ensures Leaves(plan, world, js, ss, statuses)
  {
    forall h: nat | h < g && h !in ss ensures Opens(plan, world, js, ss, h) {
      assert Passes(plan, world, js, ss, h);
    }
  }

  /** The same where the call stops at a gate it has opened. */
  lemma {:induction false} LeavesAtStop(plan: Plan, world: World, js: map<nat, seq<int>>, ss: map<nat, StatusFile>,
                                        before: map<nat, StatusFile>, statuses: map<nat, StatusFile>, g: nat)
    requires g < |plan.gates| && PassedTo(plan, world, js, ss, g) && LeftBefore(plan, world, ss, before, g)
    requires !Passes(plan, world, js, ss, g) && StatusAt(plan, world, js, ss, statuses, g)
    requires forall h: nat :: h != g ==> (h in statuses <==> h in before) && (h in before ==> statuses[h] == before[h])
    ensures Leaves(plan, world, js, ss, statuses)
  {
    forall h: nat | h < g && h !in ss ensures Opens(plan, world, js, ss, h) {
      assert Passes(plan, world, js, ss, h);
    }
    assert Opens(plan, world, js, ss, g) <==> world.ready(g) && Untouched(js, ss, g);
  }

  // ---- one durable action at a time ----

  /** Where a gate's attempts stand: `n` made and journaled, all exited 0, and the last one made is the gate's. */
  ghost predicate Running(g: nat, n: nat, journals: map<nat, seq<int>>, statuses: map<nat, StatusFile>,
                          launches: seq<Launch>) {
    && g in journals && g !in statuses && journals[g] == ExitsOf(launches, g) && |journals[g]| == n
    && (if n == 0 then launches == [] || launches[|launches| - 1].gate < g
        else launches != [] && launches[|launches| - 1] == Launch(g, n - 1, 0))
  }

  /** A journal is created only where none was, so no attempt of this gate or a later one was ever made. */
  lemma {:induction false} JournalOpened(plan: Plan, journals: map<nat, seq<int>>,
                                         statuses: map<nat, StatusFile>, launches: seq<Launch>, g: nat)
    requires Disciplined(Manifest(plan), journals, statuses, launches) && g < |plan.gates| && g !in journals
    requires forall h :: 0 <= h < g ==> h in statuses && statuses[h].Status?
    ensures Disciplined(Manifest(plan), journals[g := []], statuses, launches)
    ensures Running(g, 0, journals[g := []], statuses, launches)
  {
    assert GateKept(g, plan.gates[g].entries, journals, statuses, launches);
    forall k | 0 <= k < |plan.gates| ensures GateKept(k, plan.gates[k].entries, journals[g := []], statuses, launches) {
      assert GateKept(k, plan.gates[k].entries, journals, statuses, launches);
    }
    if launches != [] {
      var last := launches[|launches| - 1].gate;
      assert GateKept(last, plan.gates[last].entries, journals, statuses, launches);
    }
  }

  lemma {:induction false} StillInOrder(launches: seq<Launch>, g: nat, n: nat, code: int)
    requires InOrder(launches)
    requires if n == 0 then launches == [] || launches[|launches| - 1].gate < g
             else launches != [] && launches[|launches| - 1] == Launch(g, n - 1, 0)
    ensures InOrder(launches + [Launch(g, n, code)])
  {
    var l := Launch(g, n, code);
    forall i | 0 <= i < |launches + [l]| ensures Follows(launches + [l], i) {
      if i < |launches| {
        assert Follows(launches, i);
      }
    }
  }

  lemma {:induction false} LaunchPut(k: nat, entries: nat, journals: map<nat, seq<int>>, statuses: map<nat, StatusFile>,
                                     launches: seq<Launch>, g: nat, n: nat, code: int)
    requires GateKept(k, entries, journals, statuses, launches) && Running(g, n, journals, statuses, launches)
    requires g == k ==> n < entries
    ensures GateKept(k, entries, journals, statuses, launches + [Launch(g, n, code)])
  {
    ExitsNext(launches, Launch(g, n, code), k);
  }

  lemma {:induction false} GatesAfterLaunch(plan: Plan, journals: map<nat, seq<int>>, statuses: map<nat, StatusFile>,
                                            launches: seq<Launch>, g: nat, n: nat, code: int)
    requires Disciplined(Manifest(plan), journals, statuses, launches) && g < |plan.gates| && n < plan.gates[g].entries
    requires Running(g, n, journals, statuses, launches)
    ensures forall k :: 0 <= k < |plan.gates| ==>
              GateKept(k, plan.gates[k].entries, journals, statuses, launches + [Launch(g, n, code)])
  {
    forall k | 0 <= k < |plan.gates|
      ensures GateKept(k, plan.gates[k].entries, journals, statuses, launches + [Launch(g, n, code)])
    {
      LaunchPut(k, plan.gates[k].entries, journals, statuses, launches, g, n, code);
    }
  }

  /** The next attempt starts. */
  lemma {:induction false} Launched(plan: Plan, journals: map<nat, seq<int>>, statuses: map<nat, StatusFile>,
                                    launches: seq<Launch>, g: nat, n: nat, code: int)
    requires Disciplined(Manifest(plan), journals, statuses, launches) && g < |plan.gates| && n < plan.gates[g].entries
    requires Running(g, n, journals, statuses, launches)
    ensures Disciplined(Manifest(plan), journals, statuses, launches + [Launch(g, n, code)])
  {
    StillInOrder(launches, g, n, code);
    GatesAfterLaunch(plan, journals, statuses, launches, g, n, code);
  }

  /** Its exit is journaled. */
  lemma {:induction false} Logged(plan: Plan, journals: map<nat, seq<int>>, statuses: map<nat, StatusFile>,
                                  launches: seq<Launch>, g: nat, n: nat, code: int)
    requires Running(g, n, journals, statuses, launches) && g < |plan.gates|
    requires Disciplined(Manifest(plan), journals, statuses, launches + [Launch(g, n, code)])
    ensures var journals', launches' := journals[g := journals[g] + [code]], launches + [Launch(g, n, code)];
      && Disciplined(Manifest(plan), journals', statuses, launches')
      && journals'[g] == ExitsOf(launches', g) && (code == 0 ==> Running(g, n + 1, journals', statuses, launches'))
  {
    var journals', launches' := journals[g := journals[g] + [code]], launches + [Launch(g, n, code)];
    ExitsNext(launches, Launch(g, n, code), g);
    forall k | 0 <= k < |plan.gates| ensures GateKept(k, plan.gates[k].entries, journals', statuses, launches') {
      assert GateKept(k, plan.gates[k].entries, journals, statuses, launches');
    }
  }

  /** A gate is kept when a status is put where none, or an unfinished one, was. */
  lemma {:induction false} StatusPut(k: nat, entries: nat, journals: map<nat, seq<int>>, statuses: map<nat, StatusFile>,
                                     launches: seq<Launch>, g: nat, s: StatusFile)
    requires GateKept(k, entries, journals, statuses, launches)
    requires g in statuses ==> statuses[g].PartStatus?
    requires g in journals && journals[g] == ExitsOf(launches, g)
    requires g == k && s.Status? ==> Closed(journals[g], ExitsOf(launches, g), s.code, entries)
    ensures GateKept(k, entries, journals, statuses[g := s], launches)
  {
  }

  /** The status of a journaled gate is created. */
  lemma {:induction false} StatusCreated(plan: Plan, journals: map<nat, seq<int>>,
                                         statuses: map<nat, StatusFile>, launches: seq<Launch>, g: nat)
    requires Disciplined(Manifest(plan), journals, statuses, launches) && g < |plan.gates| && g !in statuses
    requires g in journals && journals[g] == ExitsOf(launches, g)
    ensures Disciplined(Manifest(plan), journals, statuses[g := PartStatus], launches)
  {
    forall k | 0 <= k < |plan.gates|
      ensures GateKept(k, plan.gates[k].entries, journals, statuses[g := PartStatus], launches)
    {
      StatusPut(k, plan.gates[k].entries, journals, statuses, launches, g, PartStatus);
    }
  }

  /** It is written. */
  lemma {:induction false} StatusWritten(plan: Plan, journals: map<nat, seq<int>>,
                                         statuses: map<nat, StatusFile>, launches: seq<Launch>, g: nat,
                                         code: int)
    requires Disciplined(Manifest(plan), journals, statuses, launches) && g < |plan.gates|
    requires g in statuses ==> statuses[g].PartStatus?
    requires g in journals && Closed(journals[g], ExitsOf(launches, g), code, plan.gates[g].entries)
    ensures Disciplined(Manifest(plan), journals, statuses[g := Status(code)], launches)
  {
    forall k | 0 <= k < |plan.gates|
      ensures GateKept(k, plan.gates[k].entries, journals, statuses[g := Status(code)], launches)
    {
      StatusPut(k, plan.gates[k].entries, journals, statuses, launches, g, Status(code));
    }
  }

  /** Gates are begun one after another: where one was begun, all before it have their status. */
  lemma {:induction false} BeforeBegun(plan: Plan, journals: map<nat, seq<int>>, statuses: map<nat, StatusFile>,
                                       launches: seq<Launch>, g: nat)
    requires Disciplined(Manifest(plan), journals, statuses, launches) && g in journals
    ensures g < |plan.gates| && forall h :: 0 <= h < g ==> h in statuses && statuses[h].Status?
  {
    assert GateKept(g, plan.gates[g].entries, journals, statuses, launches);
  }

  /** Over a gate that was begun and not finished a call makes nothing, and ends without an exit code. */
  lemma {:induction false} StuckGate(plan: Plan, world: World, js: map<nat, seq<int>>, ss: map<nat, StatusFile>,
                                     before: seq<Launch>, g: nat, made: seq<Launch>, statuses: map<nat, StatusFile>,
                                     at: nat, outcome: Outcome)
    requires Disciplined(Manifest(plan), js, ss, before) && g in js && g !in ss
    requires OnlyAsDue(made, plan, world, js, ss)
    ensures made == []
    ensures Fulfilled(plan, world, js, ss, made, statuses, at, outcome) ==> !outcome.Exit?
  {
    assert made != [] ==> made[0] in made;
    NothingOpens(plan, world, js, ss, before, g);
    BeforeBegun(plan, js, ss, before, g);
  }

  lemma {:induction false} NothingOpens(plan: Plan, world: World, js: map<nat, seq<int>>, ss: map<nat, StatusFile>,
                                        before: seq<Launch>, g: nat)
    requires Disciplined(Manifest(plan), js, ss, before) && g in js && g !in ss
    ensures g < |plan.gates| && forall h: nat :: !Opens(plan, world, js, ss, h)
    ensures !Passes(plan, world, js, ss, g) && forall h: nat :: Untouched(js, ss, h) ==> h > g
  {
    BeforeBegun(plan, js, ss, before, g);
    forall h: nat ensures Opens(plan, world, js, ss, h) ==> h > g && Passes(plan, world, js, ss, g) {
    }
  }

  /** Exit 0 is a whole status and a passing verdict for every gate. */
  lemma {:induction false} PassMeans(plan: Plan, world: World, js: map<nat, seq<int>>, ss: map<nat, StatusFile>,
                                     made: seq<Launch>, statuses: map<nat, StatusFile>, at: nat)
    requires Fulfilled(plan, world, js, ss, made, statuses, at, Exit(0))
    ensures plan.gates != []
    ensures forall g :: 0 <= g < |plan.gates| ==>
              g in statuses && statuses[g].Status? && world.verdicts(g).Some?
                  && world.verdicts(g).value !in {1, 2, 75, 101}
  {
    var verdicts := Verdicts(world, |plan.gates|);
    forall g | 0 <= g < |plan.gates|
      ensures g in statuses && statuses[g].Status? && world.verdicts(g).Some?
              && world.verdicts(g).value !in {1, 2, 75, 101}
    {
      assert Passes(plan, world, js, ss, g) && verdicts[g] in verdicts;
      assert g !in ss ==> Opens(plan, world, js, ss, g);
    }
  }

  // ---- the collector ----

  class Work {
    var manifest: Manifest
    var journals: map<nat, seq<int>>
    var statuses: map<nat, StatusFile>
    /** History: every attempt started by any call. */
    var launches: seq<Launch>

    ghost predicate Valid()
      reads this
    {
      Disciplined(manifest, journals, statuses, launches)
    }

    constructor ()
      ensures Valid() && manifest == NoManifest && journals == map[] && statuses == map[] && launches == []
    {
      manifest, journals, statuses, launches := NoManifest, map[], map[], [];
    }

    /** The manifest: read it, or create and write it. */
    method Freeze(plan: Plan, life: nat) returns (stop: Option<Outcome>, left: nat)
      requires Valid()
      modifies this`manifest
      ensures Valid()
      ensures stop.None? ==> manifest == Manifest(plan) && left <= life <= left + 2
      ensures old(manifest).NoManifest? ==> stop == if life < 2 then Some(Crashed) else None
      ensures !old(manifest).NoManifest? ==>
                manifest == old(manifest) && stop == if manifest == Manifest(plan) then None else Some(Raised)
    {
      left, stop := life, None;
      if manifest.Manifest? {
        stop := if manifest.plan == plan then None else Some(Raised);
      } else if manifest.PartManifest? {
        stop := Some(Raised);
      } else if left == 0 {
        stop := Some(Crashed);
      } else {
        manifest := PartManifest;
        if left == 1 {
          return Some(Crashed), 0;
        }
        manifest, left := Manifest(plan), left - 2;
        forall g | 0 <= g < |plan.gates| ensures GateKept(g, plan.gates[g].entries, journals, statuses, launches) {
        }
      }
    }

    /** One attempt: start it, then journal its exit. */
    method AttemptOne(plan: Plan, g: nat, n: nat, code: int, life: nat) returns (crashed: bool)
      requires Valid() && manifest == Manifest(plan) && g < |plan.gates| && n < plan.gates[g].entries
      requires Running(g, n, journals, statuses, launches)
      modifies this`journals, this`launches
      ensures Valid() && crashed == (life < 2) && journals.Keys == old(journals).Keys
      ensures launches == if life == 0 then old(launches) else old(launches) + [Launch(g, n, code)]
      ensures !crashed ==>
                && g in journals && Closed(journals[g], ExitsOf(launches, g), code, n + 1)
                && (code == 0 ==> Running(g, n + 1, journals, statuses, launches))
    {
      if life == 0 {
        return true;
      }
      Launched(plan, journals, statuses, launches, g, n, code);
      Logged(plan, journals, statuses, launches, g, n, code);
      launches := launches + [Launch(g, n, code)];
      if life == 1 {
        return true;
      }
      journals := journals[g := journals[g] + [code]];
      return false;
    }

    /** The attempts of one gate, until one exits nonzero. */
    method Attempt(plan: Plan, g: nat, exits: (nat, nat) -> int, life: nat)
      returns (stop: Option<Outcome>, code: int, left: nat, ghost made: seq<Launch>)
      requires Valid() && manifest == Manifest(plan) && g < |plan.gates| && Running(g, 0, journals, statuses, launches)
      modifies this`journals, this`launches
      ensures Valid() && launches == old(launches) + made
      ensures journals.Keys == old(journals).Keys
      ensures OnlyDue(made, plan, exits, g)
      ensures stop.None? ==>
                && g in journals && Closed(journals[g], ExitsOf(launches, g), code, plan.gates[g].entries)
                && EndsWith(exits, g, plan.gates[g].entries, code)
                && left + 2 * plan.gates[g].entries >= life
      ensures stop != Some(Crashed) ==> AllDue(made, plan, exits, g)
      ensures stop.Some? ==> stop.value == if plan.gates[g].entries == 0 then Raised else Crashed
      ensures stop == Some(Crashed) ==> life < 2 * plan.gates[g].entries
    {
      left, code, made := life, 0, [];
      for n := 0 to plan.gates[g].entries
        invariant Valid() && Running(g, n, journals, statuses, launches) && launches == old(launches) + made
        invariant journals.Keys == old(journals).Keys
        invariant code == 0 && (n > 0 ==> Closed(journals[g], ExitsOf(launches, g), 0, n))
        invariant left == life - 2 * n && AllZero(exits, g, n)
        invariant MadeUpTo(made, plan, exits, g, n)
      {
        code := exits(g, n);
        MadeNext(made, plan, exits, g, n);
        Permutations.Regroup(old(launches), made, [Launch(g, n, code)]);
        var crashed := AttemptOne(plan, g, n, code, left);
        if left > 0 {
          made := made + [Launch(g, n, code)];
        }
        if crashed {
          return Some(Crashed), 0, 0, made;
        }
        left := left - 2;
        if code != 0 {
          return None, code, left, made;
        }
      }
      MadeAll(made, plan, exits, g);
      stop := if plan.gates[g].entries == 0 then Some(Raised) else None;
    }

    /** The status of a finished gate: created, then written. */
    method File(plan: Plan, g: nat, code: int, life: nat) returns (crashed: bool)
      requires Valid() && manifest == Manifest(plan) && g < |plan.gates| && g !in statuses
      requires g in journals && Closed(journals[g], ExitsOf(launches, g), code, plan.gates[g].entries)
      modifies this`statuses
      ensures Valid() && crashed == (life < 2)
      ensures statuses == if life == 0 then old(statuses)
        else old(statuses)[g := if life == 1 then PartStatus else Status(code)]
    {
      if life == 0 {
        return true;
      }
      StatusCreated(plan, journals, statuses, launches, g);
      StatusWritten(plan, journals, statuses, launches, g, code);
      statuses := statuses[g := PartStatus];
      if life == 1 {
        return true;
      }
      statuses := statuses[g := Status(code)];
      assert statuses == old(statuses)[g := Status(code)];
      return false;
    }

    /** The journal is created exclusively: where one exists, the gate was begun before and the call fails. */
    method OpenJournal(plan: Plan, g: nat, life: nat) returns (stop: Option<Outcome>)
      requires Valid() && manifest == Manifest(plan) && g < |plan.gates|
      requires forall h :: 0 <= h < g ==> h in statuses && statuses[h].Status?
      modifies this`journals
      ensures Valid()
      ensures stop == if g in old(journals) then Some(Raised) else if life == 0 then Some(Crashed) else None
      ensures stop.None? ==> Running(g, 0, journals, statuses, launches)
      ensures journals == if stop.None? then old(journals)[g := []] else old(journals)
    {
      if g in journals {
        return Some(Raised);
      }
      if life == 0 {
        return Some(Crashed);
      }
      JournalOpened(plan, journals, statuses, launches, g);
      journals := journals[g := []];
      return None;
    }

    /** A gate with no status yet: its journal is created exclusively, then its attempts run. */
    method RunGate(plan: Plan, g: nat, exits: (nat, nat) -> int, life: nat)
      returns (stop: Option<Outcome>, left: nat, ghost made: seq<Launch>)
      requires Valid() && manifest == Manifest(plan) && g < |plan.gates| && g !in statuses
      requires forall h :: 0 <= h < g ==> h in statuses && statuses[h].Status?
      modifies this`journals, this`launches, this`statuses
      ensures Valid() && launches == old(launches) + made
      ensures journals.Keys == old(journals).Keys || journals.Keys == old(journals).Keys + {g}
      ensures forall h :: h != g ==> (h in statuses <==> h in old(statuses)) &&
                                     (h in statuses ==> statuses[h] == old(statuses)[h])
      ensures g in old(journals) ==> stop == Some(Raised) && made == [] && statuses == old(statuses)
      ensures OnlyDue(made, plan, exits, g)
      ensures g !in old(journals) && stop != Some(Crashed) ==>
                && AllDue(made, plan, exits, g)
                && (if plan.gates[g].entries == 0 then stop == Some(Raised) && g !in statuses
                    else
                      && g in statuses && statuses[g].Status?
                      && var code := statuses[g].code;
                         && EndsWith(exits, g, plan.gates[g].entries, code)
                         && stop == if code == 0 then None
                                    else Some(Exit(if code in {2, 75, 101} then code else 2)))
      ensures stop == Some(Crashed) ==> life < ActionsAt(plan, g)
      ensures stop.None? ==> left + ActionsAt(plan, g) >= life
    {
      made := [];
      stop := OpenJournal(plan, g, life);
      if stop.Some? {
        return stop, 0, made;
      }
      var code;
      stop, code, left, made := Attempt(plan, g, exits, life - 1);
      if stop.Some? {
        return;
      }
      var crashed := File(plan, g, code, left);
      if crashed {
        return Some(Crashed), 0, made;
      }
      left := left - 2;
      if code != 0 {
        stop := Some(Exit(if code in {2, 75, 101} then code else 2));
      }
    }

    /** One turn of the loop: a gate is run if it has no status, and its status is judged. */
    method OneGate(plan: Plan, g: nat, world: World, life: nat)
      returns (stop: Option<Outcome>, verdict: int, left: nat, ghost made: seq<Launch>)
      requires Valid() && manifest == Manifest(plan) && g < |plan.gates|
      requires forall h :: 0 <= h < g ==> h in statuses && statuses[h].Status?
      modifies this`journals, this`launches, this`statuses
      ensures Valid() && launches == old(launches) + made
      ensures journals.Keys == old(journals).Keys || journals.Keys == old(journals).Keys + {g}
      ensures forall h :: h != g || h in old(statuses) ==>
                (h in statuses <==> h in old(statuses)) && (h in statuses ==> statuses[h] == old(statuses)[h])
      ensures OnlyDue(made, plan, world.exits, g)
      ensures made != [] ==> world.ready(g) && Untouched(old(journals), old(statuses), g)
      ensures stop != Some(Crashed) ==>
                && MadeAt(made, plan, world, old(journals), old(statuses), g)
                && StatusAt(plan, world, old(journals), old(statuses), statuses, g)
      ensures stop.None? ==>
                && Passes(plan, world, old(journals), old(statuses), g) && world.verdicts(g) == Some(verdict)
                && g in statuses && statuses[g].Status? && left + ActionsAt(plan, g) >= life
      ensures stop == Some(Crashed) ==> life < ActionsAt(plan, g)
      ensures stop.Some? && stop != Some(Crashed) ==>
                && !Passes(plan, world, old(journals), old(statuses), g)
                && StopsWith(plan, world, old(journals), old(statuses), g, stop.value)
    {
      stop, verdict, left, made := None, 0, life, [];
      if !world.ready(g) {
        return Some(Raised), 0, left, made;
      }
      ghost var js, ss := journals, statuses;
      if g !in statuses {
        stop, left, made := RunGate(plan, g, world.exits, left);
        if stop != Some(Crashed) && g in statuses {
          EndsOnce(world.exits, g, plan.gates[g].entries, statuses[g].code);
          assert statuses[g].code != 0 ==> FailsWith(plan, world, js, ss, g, statuses[g].code);
        }
        if stop.Some? {
          return;
        }
      }
      if statuses[g].PartStatus? || world.verdicts(g).None? {
        return Some(Raised), 0, left, made;
      }
      verdict := world.verdicts(g).value;
    }

    /** The same, seen from the directory `js`, `ss` the call found, the gates before passed. */
    method NextGate(plan: Plan, g: nat, world: World, life: nat, ghost js: map<nat, seq<int>>,
                    ghost ss: map<nat, StatusFile>, ghost made: seq<Launch>)
      returns (stop: Option<Outcome>, verdict: int, left: nat, ghost more: seq<Launch>)
      requires Valid() && manifest == Manifest(plan) && g < |plan.gates|
      requires Walked(plan, world, js, ss, g, made, statuses)
      requires UntouchedFrom(js, journals, g)
      modifies this`journals, this`launches, this`statuses
      ensures Valid() && launches == old(launches) + more
      ensures UntouchedFrom(js, journals, g + 1)
      ensures Kept(old(statuses), statuses)
      ensures OnlyAsDue(made + more, plan, world, js, ss)
      ensures stop.None? ==>
                && Walked(plan, world, js, ss, g + 1, made + more, statuses) && world.verdicts(g) == Some(verdict)
                && left + ActionsAt(plan, g) >= life
      ensures stop == Some(Crashed) ==> life < ActionsAt(plan, g)
      ensures stop.Some? && stop != Some(Crashed) ==>
                Fulfilled(plan, world, js, ss, made + more, statuses, g, stop.value)
    {
      ghost var open, was := journals, statuses;
      stop, verdict, left, more := OneGate(plan, g, world, life);
      OnlyOpened(made, more, plan, world, js, ss, g);
      if stop == Some(Crashed) {
        return;
      }
      GateAlike(more, plan, world, js, ss, open, was, statuses, g);
      if stop.Some? {
        StopAlike(plan, world, js, ss, open, was, g, stop.value);
        WalkStops(plan, world, js, ss, g, made, more, was, statuses, stop.value);
      } else {
        WalkedOn(plan, world, js, ss, g, made, more, was, statuses);
      }
    }

    /** The gates in order, under a whole manifest that states the plan. */
    method AllGates(plan: Plan, world: World, life: nat)
      returns (outcome: Outcome, ghost made: seq<Launch>, ghost at: nat)
      requires Valid() && manifest == Manifest(plan)
      modifies this`journals, this`launches, this`statuses
      ensures Valid() && launches == old(launches) + made
      ensures Kept(old(statuses), statuses)
      ensures OnlyAsDue(made, plan, world, old(journals), old(statuses))
      ensures outcome != Crashed ==>
                Fulfilled(plan, world, old(journals), old(statuses), made, statuses, at, outcome)
      ensures life >= ActionsFrom(plan, 0) ==> outcome != Crashed
    {
      ghost var js, ss := journals, statuses;
      ghost var enough := life >= ActionsFrom(plan, 0);
      var left: nat, verdicts: seq<int> := life, [];
      made := [];
      WalkBegins(plan, world, js, ss);
      for g := 0 to |plan.gates|
        invariant Valid() && manifest == Manifest(plan) && launches == old(launches) + made
        invariant Kept(ss, statuses)
        invariant OnlyAsDue(made, plan, world, js, ss)
        invariant Walked(plan, world, js, ss, g, made, statuses) && verdicts == Verdicts(world, g)
        invariant UntouchedFrom(js, journals, g)
        invariant enough ==> left >= ActionsFrom(plan, g)
      {
        var stop, verdict, rest, more := NextGate(plan, g, world, left, js, ss, made);
        Permutations.Regroup(old(launches), made, more);
        left, made := rest, made + more;
        if stop.Some? {
          return stop.value, made, g;
        }
        VerdictsNext(world, g, verdict);
        verdicts := verdicts + [verdict];
      }
      WalkEnds(plan, world, js, ss, made, statuses, verdicts);
      return Exit(Overall(verdicts)), made, |plan.gates|;
    }

    /**
     `collect`, with the process dying after `world.life` durable actions.
     Whatever happens it keeps the discipline, changes no status it finds and
     starts nothing but what is due in a gate it opens. A call that is not cut
     short does all of that, gate by gate, and its outcome is the one the
     directory it found and the outside determine; one with enough life is not
     cut short.
     */
    method Collect(plan: Plan, world: World) returns (outcome: Outcome, ghost made: seq<Launch>, ghost at: nat)
      requires Valid()
      modifies this
      ensures Valid() && launches == old(launches) + made
      ensures Kept(old(statuses), statuses)
      ensures old(manifest) != NoManifest && old(manifest) != Manifest(plan) ==>
                && outcome == Raised && made == [] && manifest == old(manifest)
                && journals == old(journals) && statuses == old(statuses)
      ensures OnlyAsDue(made, plan, world, old(journals), old(statuses))
      ensures old(manifest) in {NoManifest, Manifest(plan)} && outcome != Crashed ==>
                manifest == Manifest(plan)
                && Fulfilled(plan, world, old(journals), old(statuses), made, statuses, at, outcome)
      ensures world.life >= 2 + ActionsFrom(plan, 0) ==> outcome != Crashed
      ensures (exists g :: g in old(journals) && g !in old(statuses)) ==> made == [] && !outcome.Exit?
      ensures outcome == Exit(0) ==>
                && plan.gates != [] && manifest == Manifest(plan)
                && forall g :: 0 <= g < |plan.gates| ==>
                     g in statuses && statuses[g].Status? && world.verdicts(g).Some?
                         && world.verdicts(g).value !in {1, 2, 75, 101}
    {
      made, at := [], 0;
      var stop, left := Freeze(plan, world.life);
      if stop.Some? {
        return stop.value, made, at;
      }
      ghost var js, ss, before := journals, statuses, launches;
      outcome, made, at := AllGates(plan, world, left);
      if g :| g in js && g !in ss {
        StuckGate(plan, world, js, ss, before, g, made, statuses, at, outcome);
      }
      if outcome == Exit(0) {
        PassMeans(plan, world, js, ss, made, statuses, at);
      }
    }
  }

  // ---- any number of calls ----

  /** The code the attempts of a gate end with is one code. */
  lemma {:induction false} EndsOnce(exits: (nat, nat) -> int, g: nat, entries: nat, code: int)
    requires EndsWith(exits, g, entries, code)
    ensures forall other :: EndsWith(exits, g, entries, other) ==> other == code
  {
    forall other | EndsWith(exits, g, entries, other) ensures other == code {
      if code != 0 && other != 0 {
        var n: nat :| n < entries && exits(g, n) == code && AllZero(exits, g, n);
        var m: nat :| m < entries && exits(g, m) == other && AllZero(exits, g, m);
      }
    }
  }

  /**
   Calls in any number, with any plans, each dying anywhere: no attempt is
   made twice, and if the first call is not cut short every attempt that is
   due in an empty directory is made.
   */
  method CollectAgainAndAgain(calls: seq<(Plan, World)>) returns (work: Work, outcomes: seq<Outcome>)
    ensures fresh(work) && work.Valid() && |outcomes| == |calls|
    ensures forall i, j :: 0 <= i < j < |work.launches| ==>
              (work.launches[i].gate, work.launches[i].ordinal) != (work.launches[j].gate, work.launches[j].ordinal)
    ensures calls != [] && calls[0].1.life >= 2 + ActionsFrom(calls[0].0, 0) ==>
              AllMade(work.launches, calls[0].0, calls[0].1, map[], map[])
  {
    work := new Work();
    outcomes := [];
    for k := 0 to |calls|
      invariant fresh(work) && work.Valid() && |outcomes| == k
      invariant k == 0 ==> work.manifest == NoManifest && work.journals == map[] && work.statuses == map[]
      invariant k > 0 && calls[0].1.life >= 2 + ActionsFrom(calls[0].0, 0) ==>
                  AllMade(work.launches, calls[0].0, calls[0].1, map[], map[])
    {
      var outcome, made, at := work.Collect(calls[k].0, calls[k].1);
      outcomes := outcomes + [outcome];
    }
    AttemptedAtMostOnce(work.manifest, work.journals, work.statuses, work.launches);
  }

  /** Of two attempts the later has the higher gate, or the same gate, a higher ordinal, and follows an exit 0. */
  lemma {:induction false} LaterIsHigher(launches: seq<Launch>, i: nat, j: nat)
    requires InOrder(launches) && i < j < |launches|
    ensures launches[i].gate < launches[j].gate ||
            (launches[i].gate == launches[j].gate && launches[i].ordinal < launches[j].ordinal && launches[i].code == 0)
    decreases j
  {
    assert Follows(launches, j);
    if i < j - 1 {
      LaterIsHigher(launches, i, j - 1);
    }
  }

  /** The attempts of a gate before entry `n` are entries `0` to `n - 1`, in a row, all exited 0. */
  lemma {:induction false} EarlierEntries(launches: seq<Launch>, j: nat, k: nat)
    requires InOrder(launches) && j < |launches| && k <= launches[j].ordinal
    ensures k <= j && launches[j - k].gate == launches[j].gate && launches[j - k].ordinal == launches[j].ordinal - k
    ensures k > 0 ==> launches[j - k].code == 0
    decreases k
  {
    if k > 0 {
      EarlierEntries(launches, j, k - 1);
      assert Follows(launches, j - (k - 1));
    }
  }

  /**
   At most once: over all calls together no entry of any gate is attempted
   twice, and none after a nonzero exit in its gate.
   */
  lemma {:induction false} AttemptedAtMostOnce(manifest: Manifest, journals: map<nat, seq<int>>,
                                               statuses: map<nat, StatusFile>, launches: seq<Launch>)
    requires Disciplined(manifest, journals, statuses, launches)
    ensures forall i, j :: 0 <= i < j < |launches| ==>
              (launches[i].gate, launches[i].ordinal) != (launches[j].gate, launches[j].ordinal)
    ensures forall i, j :: 0 <= i < j < |launches| && launches[i].gate == launches[j].gate ==>
              launches[i].code == 0 && launches[i].ordinal < launches[j].ordinal
  {
    forall i, j | 0 <= i < j < |launches|
      ensures launches[i].gate < launches[j].gate ||
              (launches[i].gate == launches[j].gate && launches[i].ordinal < launches[j].ordinal
               && launches[i].code == 0)
    {
      LaterIsHigher(launches, i, j);
    }
  }

  /** A finished collection exits with the first of 2, 101, 1 and 75 among the verdicts, 0 without one, 2 for none. */
  lemma {:induction false} OverallIsFirst(verdicts: seq<int>)
    ensures Overall(verdicts) == 0 <==> verdicts != [] && forall v :: v in verdicts ==> v !in {2, 101, 1, 75}
    ensures Overall(verdicts) == 2 <==> verdicts == [] || 2 in verdicts
    ensures Overall(verdicts) == 101 <==> 101 in verdicts && 2 !in verdicts
    ensures Overall(verdicts) == 1 <==> 1 in verdicts && 2 !in verdicts && 101 !in verdicts
    ensures Overall(verdicts) == 75 <==> 75 in verdicts && 2 !in verdicts && 101 !in verdicts && 1 !in verdicts
  {
    if verdicts != [] {
      assert verdicts[0] in verdicts;
    }
  }

  /** With the five codes `evaluate` can return, a collection passes exactly if it has a gate and every gate passes. */
  lemma {:induction false} PassesIffAllPass(verdicts: seq<int>)
    requires forall i :: 0 <= i < |verdicts| ==> verdicts[i] in {0, 1, 2, 75, 101}
    ensures Overall(verdicts) == 0 <==> verdicts != [] && forall i :: 0 <= i < |verdicts| ==> verdicts[i] == 0
  {
    if Overall(verdicts) == 0 {
      forall i | 0 <= i < |verdicts| ensures verdicts[i] == 0 {
        assert verdicts[i] in verdicts;
      }
    }
  }
}
