/**
 Superseded series: `series_check` and `evaluate`, which call each other. A
 status may name the status it supersedes, with the exit code and reason for
 which that one was rejected. A digest is an identity: equal digests mean
 equal files.
 */
module SeriesChain {
  import opened Wrappers
  import V = Verdict

  type Path = string

  const MAX_SERIES := 16

  datatype Ref = Ref(path: Path, sha: nat)

  /** A ruling on a failed predecessor. `intact`: its own artifacts are unchanged. */
  datatype Disposition = Disposition(previousSha: nat, intact: bool)

  datatype Rejection = Rejection(exit: int, reason: string, disposition: Option<Disposition>)

  datatype Series = Series(id: string, pins: nat, previous: Option<Ref>, rejection: Option<Rejection>)

  /** A failed attempt is recorded with one of these. */
  type FailureExit = c: int | c in {2, 75, 101} witness 2

  /** What a status has to show for itself: nothing usable, a substantiated failure, or its rows. */
  datatype Evidence = Broken | Failed(exit: FailureExit) | Ran(rows: seq<V.Row>)

  /** `intact`: its artifacts and row fingerprints are unchanged. */
  datatype Status = Status(series: Series, hasRuns: bool, hasArtifacts: bool, intact: bool, evidence: Evidence)

  datatype Filed = Filed(sha: nat, status: Status)

  type Disk = map<Path, Filed>

  /** Frozen pins; G1 and G14 bind the pins and status of their control. */
  datatype Pins = Pins(sha: nat, rules: V.Pins, control: Option<Binding>)

  datatype Binding = Binding(pins: Pins, status: Path)

  /** `artifact` and `read`: the file is there and unchanged. */
  function Fetch(disk: Disk, ref: Ref): Option<Status> {
    if ref.path in disk && disk[ref.path].sha == ref.sha then Some(disk[ref.path].status) else None
  }

  function Control(disk: Disk, pins: Pins): Result<int, V.Fault>
    decreases pins, 0
  {
    match pins.control
    case None => Err(V.BadControl)
    case Some(binding) =>
      if binding.pins.rules.gate != "Q3-" + pins.rules.gate || binding.status !in disk then Err(V.BadControl)
      else Evaluate(disk, binding.pins, disk[binding.status].status)
  }

  /** `evaluate` once the ancestry is checked. */
  function OwnCode(disk: Disk, pins: Pins, status: Status): Result<int, V.Fault>
    decreases pins, 1
  {
    match status.evidence
    case Broken => Err(V.BadAttempt)
    case Failed(exit) => Ok(exit)
    case Ran(rows) => V.Judge(pins.rules, rows, Control(disk, pins))
  }

  /** The exit code a predecessor counts with: an exception counts as 2. */
  function RejectedAs(disk: Disk, pins: Pins, status: Status): int
    decreases pins, 2
  {
    var code := OwnCode(disk, pins, status);
    if code.Ok? then code.value else 2
  }

  predicate NeedsDisposition(code: int, previous: Status) {
    code == 1 || ((code == 2 || code == 101) && previous.hasRuns)
  }

  /** The successor's rejection record matches what the predecessor evaluates to. */
  predicate Recorded(rejection: Option<Rejection>, code: int, previous: Status, sha: nat) {
    && code != 0 && rejection.Some? && rejection.value.exit == code && rejection.value.reason != ""
    && (NeedsDisposition(code, previous) ==>
          var d := rejection.value.disposition;
          d.Some? && d.value.intact && d.value.previousSha == sha)
  }

  predicate Attempted(status: Status) {
    (status.hasRuns || status.hasArtifacts) && status.intact
  }

  /** `series_check`: it goes on at most while fewer than sixteen ids are seen. */
  predicate SeriesCheck(disk: Disk, pins: Pins, status: Status, seen: set<string>)
    decreases pins, 3, MAX_SERIES - |seen|
  {
    var series := status.series;
    && series.id !in seen && |seen| < MAX_SERIES && series.pins == pins.sha
    && match series.previous
       case None => series.rejection.None?
       case Some(ref) =>
         var previous := Fetch(disk, ref);
         && previous.Some? && Attempted(previous.value)
         && SeriesCheck(disk, pins, previous.value, seen + {series.id})
         && Recorded(series.rejection, RejectedAs(disk, pins, previous.value), previous.value, ref.sha)
  }

  /** `evaluate` of a status from outside. */
  function Evaluate(disk: Disk, pins: Pins, status: Status): Result<int, V.Fault>
    decreases pins, 4
  {
    if SeriesCheck(disk, pins, status, {}) then OwnCode(disk, pins, status) else Err(V.BadAttempt)
  }

  // ---- what an accepted ancestry is ----

  /** `previous` is what `status` supersedes, and for the reason it records. */
  predicate Supersedes(disk: Disk, pins: Pins, status: Status, previous: Status) {
    && status.series.previous.Some?
    && Fetch(disk, status.series.previous.value) == Some(previous) && Attempted(previous)
    && Recorded(status.series.rejection, RejectedAs(disk, pins, previous), previous, status.series.previous.value.sha)
  }

  /** From the newest series to the first: one set of pins, ids all new and distinct, each superseding the next. */
  predicate Lineage(disk: Disk, pins: Pins, chain: seq<Status>, seen: set<string>) {
    && chain != [] && |seen| + |chain| <= MAX_SERIES
    && (forall i :: 0 <= i < |chain| ==> chain[i].series.pins == pins.sha && chain[i].series.id !in seen)
    && (forall i, j :: 0 <= i < j < |chain| ==> chain[i].series.id != chain[j].series.id)
    && (forall i :: 0 <= i < |chain| - 1 ==> Supersedes(disk, pins, chain[i], chain[i + 1]))
    && chain[|chain| - 1].series.previous.None? && chain[|chain| - 1].series.rejection.None?
  }

  lemma {:induction false} CheckedHasLineage(disk: Disk, pins: Pins, status: Status, seen: set<string>)
    returns (chain: seq<Status>)
    requires SeriesCheck(disk, pins, status, seen)
    ensures Lineage(disk, pins, chain, seen) && chain[0] == status
    decreases MAX_SERIES - |seen|
  {
    match status.series.previous
    case None => chain := [status];
    case Some(ref) =>
      var previous := Fetch(disk, ref).value;
      var rest := CheckedHasLineage(disk, pins, previous, seen + {status.series.id});
      chain := [status] + rest;
      assert forall i :: 1 <= i < |chain| ==> chain[i] == rest[i - 1];
      forall i | 0 <= i < |chain| - 1 ensures Supersedes(disk, pins, chain[i], chain[i + 1]) {
        if i > 0 {
          assert Supersedes(disk, pins, rest[i - 1], rest[i]);
        }
      }
  }

  lemma {:induction false} LineageIsChecked(disk: Disk, pins: Pins, chain: seq<Status>, seen: set<string>)
    requires Lineage(disk, pins, chain, seen)
    ensures SeriesCheck(disk, pins, chain[0], seen)
    decreases |chain|
  {
    if |chain| > 1 {
      var rest, seen' := chain[1..], seen + {chain[0].series.id};
      assert Supersedes(disk, pins, chain[0], chain[1]);
      forall i | 0 <= i < |rest| - 1 ensures Supersedes(disk, pins, rest[i], rest[i + 1]) {
        assert Supersedes(disk, pins, chain[i + 1], chain[i + 2]);
      }
      LineageIsChecked(disk, pins, rest, seen');
    }
  }

  /**
   `series_check` accepts a status if and only if it heads a lineage: at most
   sixteen series with distinct ids under the same pins, every ancestor
   evaluating to a non-pass code equal to the rejection its successor records.
   */
  lemma {:induction false} AcceptedIffLineage(disk: Disk, pins: Pins, status: Status, seen: set<string>)
    ensures SeriesCheck(disk, pins, status, seen) <==>
            exists chain :: Lineage(disk, pins, chain, seen) && chain[0] == status
  {
    if SeriesCheck(disk, pins, status, seen) {
      var chain := CheckedHasLineage(disk, pins, status, seen);
    }
    if chain :| Lineage(disk, pins, chain, seen) && chain[0] == status {
      LineageIsChecked(disk, pins, chain, seen);
    }
  }

  /** The exit code a predecessor counts with: its own, or 2 where it cannot be evaluated. */
  predicate CountsAs(disk: Disk, pins: Pins, status: Status, code: int) {
    match OwnCode(disk, pins, status)
    case Ok(own) => code == own
    case Err(_) => code == 2
  }

  /**
   A status that names a predecessor is accepted if and only if that file is
   there unchanged with intact attempts, it is itself accepted with one more
   id seen, and the record gives the code it counts with, not 0, a reason, and
   a disposition of that very file where one is due: for exit 1, and for 2 or
   101 with runs.
   */
  lemma {:induction false} AcceptedWithPredecessor(disk: Disk, pins: Pins, status: Status, ref: Ref, seen: set<string>)
    requires status.series.previous == Some(ref)
    ensures SeriesCheck(disk, pins, status, seen) <==>
            && status.series.id !in seen && |seen| < 16 && status.series.pins == pins.sha
            && ref.path in disk && disk[ref.path].sha == ref.sha
            && var previous, record := disk[ref.path].status, status.series.rejection;
               && (previous.hasRuns || previous.hasArtifacts) && previous.intact
               && SeriesCheck(disk, pins, previous, seen + {status.series.id})
               && record.Some? && record.value.exit != 0 && record.value.reason != ""
               && CountsAs(disk, pins, previous, record.value.exit)
               && (record.value.exit == 1 || (record.value.exit in {2, 101} && previous.hasRuns) ==>
                     && record.value.disposition.Some?
                     && record.value.disposition.value.intact
                     && record.value.disposition.value.previousSha == disk[ref.path].sha)
  {
    assert Fetch(disk, ref).Some? <==> ref.path in disk && disk[ref.path].sha == ref.sha;
    if Fetch(disk, ref).Some? {
      assert CountsAs(disk, pins, Fetch(disk, ref).value, RejectedAs(disk, pins, Fetch(disk, ref).value));
    }
  }

  /** One that names none is accepted if and only if it records no rejection. */
  lemma {:induction false} AcceptedWithoutPredecessor(disk: Disk, pins: Pins, status: Status, seen: set<string>)
    requires status.series.previous.None?
    ensures SeriesCheck(disk, pins, status, seen) <==>
            && status.series.id !in seen && |seen| < 16 && status.series.pins == pins.sha
            && status.series.rejection.None?
  {
  }

  /** A status of a control shows its fault: it is accepted, and every row is valid and has a metric past its limit. */
  ghost predicate ControlShown(disk: Disk, pins: Pins, status: Status) {
    && SeriesCheck(disk, pins, status, {}) && status.evidence.Ran?
    && forall r :: r in status.evidence.rows ==>
           && r.validity == V.Valid
           && exists m :: m in pins.rules.rules && V.Num(V.MetricOf(r, m)) > pins.rules.rules[m].limit
  }

  /**
   G1 and G14 pass only over a control that works: exit 0 means that the bound
   status is on the disk, belongs to the gate's own control, is accepted, and
   shows the fault in every row.
   */
  lemma {:induction false} PassNeedsItsControl(disk: Disk, pins: Pins, status: Status)
    requires pins.rules.gate == "G1" || pins.rules.gate == "G14"
    requires Evaluate(disk, pins, status) == Ok(0)
    ensures SeriesCheck(disk, pins, status, {}) && status.evidence.Ran? && pins.control.Some?
    ensures var control := pins.control.value;
      && control.pins.rules.gate == "Q3-" + pins.rules.gate && control.status in disk
      && ControlShown(disk, control.pins, disk[control.status].status)
  {
    PassHasRows(disk, pins, status);
    GateNames(pins.rules.gate);
    assert Control(disk, pins) == Ok(0);
    var control := pins.control.value;
    var shown := disk[control.status].status;
    PassHasRows(disk, control.pins, shown);
  }

  lemma {:induction false} PassHasRows(disk: Disk, pins: Pins, status: Status)
    requires Evaluate(disk, pins, status) == Ok(0)
    ensures SeriesCheck(disk, pins, status, {}) && status.evidence.Ran?
    ensures V.Judge(pins.rules, status.evidence.rows, Control(disk, pins)) == Ok(0)
  {
    FailureIsNoPass(status.evidence);
    assert OwnCode(disk, pins, status) == Ok(0);
  }

  lemma {:induction false} FailureIsNoPass(evidence: Evidence)
    ensures evidence.Failed? ==> evidence.exit != 0
  {
    if evidence.Failed? {
      var exit: FailureExit := evidence.exit;
      assert exit in {2, 75, 101};
    }
  }

  lemma {:induction false} GateNames(gate: string)
    requires gate == "G1" || gate == "G14"
    ensures gate in V.CONTROLLED && gate !in V.CONTROLS && "Q3-" + gate in V.CONTROLS
  {
    assert "Q3-" + "G1" == "Q3-G1" && "Q3-" + "G14" == "Q3-G14";
    assert gate[0] == 'G' && "Q3-G1"[0] == 'Q' && "Q3-G14"[0] == 'Q';
  }

  /** A lineage is determined by its head. */
  lemma {:induction false} LineageIsUnique(disk: Disk, pins: Pins, chain: seq<Status>, chain': seq<Status>,
                                           seen: set<string>, seen': set<string>)
    requires Lineage(disk, pins, chain, seen) && Lineage(disk, pins, chain', seen') && chain[0] == chain'[0]
    ensures chain == chain'
    decreases |chain|
  {
    HeadSays(disk, pins, chain, seen);
    HeadSays(disk, pins, chain', seen');
    if |chain| > 1 {
      assert Supersedes(disk, pins, chain[0], chain[1]) && Supersedes(disk, pins, chain'[0], chain'[1]);
      LineageTail(disk, pins, chain, seen);
      LineageTail(disk, pins, chain', seen');
      LineageIsUnique(disk, pins, chain[1..], chain'[1..], seen + {chain[0].series.id}, seen' + {chain'[0].series.id});
      assert chain == [chain[0]] + chain[1..] && chain' == [chain'[0]] + chain'[1..];
    }
  }

  lemma {:induction false} HeadSays(disk: Disk, pins: Pins, chain: seq<Status>, seen: set<string>)
    requires Lineage(disk, pins, chain, seen)
    ensures |chain| > 1 <==> chain[0].series.previous.Some?
  {
    if |chain| > 1 {
      assert Supersedes(disk, pins, chain[0], chain[1]);
    }
  }

  lemma {:induction false} LineageTail(disk: Disk, pins: Pins, chain: seq<Status>, seen: set<string>)
    requires Lineage(disk, pins, chain, seen) && |chain| > 1
    ensures Lineage(disk, pins, chain[1..], seen + {chain[0].series.id})
  {
    var rest := chain[1..];
    forall i | 0 <= i < |rest| - 1 ensures Supersedes(disk, pins, rest[i], rest[i + 1]) {
      assert Supersedes(disk, pins, chain[i + 1], chain[i + 2]);
    }
  }

  /** A pass is final: nothing that supersedes a passing status is accepted. */
  lemma {:induction false} PassesAreFinal(disk: Disk, pins: Pins, status: Status, ref: Ref, seen: set<string>)
    requires status.series.previous == Some(ref) && Fetch(disk, ref).Some?
    requires OwnCode(disk, pins, Fetch(disk, ref).value) == Ok(0)
    ensures !SeriesCheck(disk, pins, status, seen) && Evaluate(disk, pins, status).Err?
  {
    assert RejectedAs(disk, pins, Fetch(disk, ref).value) == 0;
    assert !SeriesCheck(disk, pins, status, {});
  }
}
