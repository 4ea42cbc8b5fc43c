/**
 The rows of a run as they stand, in any order, and what grouping them by
 arm, sorting them by pair and lining them up does not change.
 */
module VerdictRows {
  import opened Wrappers
  import opened Verdict
  import opened Permutations
  import M = Median

  /** The arm the candidate is compared with: itself, where there is no reference. */
  function RefArm(pins: Pins): string {
    if pins.reference.Some? then pins.reference.value else pins.candidate
  }

  predicate IsOn(row: Row, workload: string, arm: string) {
    row.workload == workload && row.arm == arm
  }

  /** The rows of an arm on a workload, as they come. */
  function On(rows: seq<Row>, workload: string, arm: string): seq<Row> {
    if rows == [] then []
    else (if IsOn(rows[0], workload, arm) then [rows[0]] else []) + On(rows[1..], workload, arm)
  }

  function Val(row: Row, metric: string): real {
    Num(MetricOf(row, metric))
  }

  function Each(rows: seq<Row>, f: Row -> real): (r: seq<real>)
    ensures |r| == |rows| && forall i :: 0 <= i < |rows| ==> r[i] == f(rows[i])
  {
    seq(|rows|, i requires 0 <= i < |rows| => f(rows[i]))
  }

  /** The run of an arm with a given pair number. */
  function Partner(rows: seq<Row>, workload: string, arm: string, pair: nat): Option<Row> {
    if rows == [] then None
    else if IsOn(rows[0], workload, arm) && rows[0].pair == pair then Some(rows[0])
    else Partner(rows[1..], workload, arm, pair)
  }

  /** The candidate run's value over that of its partner. */
  function RatioOf(pins: Pins, rows: seq<Row>, row: Row, metric: string): real {
    var partner := Partner(rows, row.workload, RefArm(pins), row.pair);
    if partner.None? || Val(partner.value, metric) == 0.0 then 0.0 else Val(row, metric) / Val(partner.value, metric)
  }

  function PairNumbers(rows: seq<Row>, workload: string, arm: string): set<nat> {
    set r | r in rows && IsOn(r, workload, arm) :: r.pair
  }

  /** No arm has a pair number twice on a workload. */
  predicate PairsDiffer(rows: seq<Row>) {
    forall i, j :: 0 <= i < j < |rows| && rows[i].workload == rows[j].workload && rows[i].arm == rows[j].arm ==>
      rows[i].pair != rows[j].pair
  }

  /** As the pinned order demands: on each workload every pair number has one run of either arm. */
  ghost predicate Paired(pins: Pins, rows: seq<Row>) {
    && PairsDiffer(rows)
    && forall w :: PairNumbers(rows, w, pins.candidate) == PairNumbers(rows, w, RefArm(pins))
  }

  // ---- the same rows ----

  lemma {:induction false} InsertedRows(row: Row, rows: seq<Row>)
    ensures multiset(InsertByPair(row, rows)) == multiset(rows) + multiset{row}
    decreases |rows|
  {
    if rows != [] && row.pair > rows[0].pair {
      InsertedRows(row, rows[1..]);
      assert rows == [rows[0]] + rows[1..];
    }
  }

  /** Grouping and sorting loses, repeats and invents no row. */
  lemma {:induction false} GroupedRows(rows: seq<Row>, workload: string, arm: string)
    ensures multiset(ArmRows(rows, workload, arm)) == multiset(On(rows, workload, arm))
    decreases |rows|
  {
    if rows != [] {
      GroupedRows(rows[1..], workload, arm);
      if IsOn(rows[0], workload, arm) {
        InsertedRows(rows[0], ArmRows(rows[1..], workload, arm));
      }
    }
  }

  lemma {:induction false} OnMembers(rows: seq<Row>, workload: string, arm: string)
    ensures forall r :: r in On(rows, workload, arm) <==> r in rows && IsOn(r, workload, arm)
    decreases |rows|
  {
    if rows != [] {
      OnMembers(rows[1..], workload, arm);
      assert rows == [rows[0]] + rows[1..];
    }
  }

  lemma {:induction false} GroupMembers(rows: seq<Row>, workload: string, arm: string, r: Row)
    ensures r in ArmRows(rows, workload, arm) <==> r in rows && IsOn(r, workload, arm)
  {
    GroupedRows(rows, workload, arm);
    OnMembers(rows, workload, arm);
    assert r in ArmRows(rows, workload, arm) <==> r in multiset(ArmRows(rows, workload, arm));
    assert r in On(rows, workload, arm) <==> r in multiset(On(rows, workload, arm));
  }

  // ---- the same values ----

  lemma {:induction false} EachTakenOut(t: seq<Row>, j: nat, f: Row -> real)
    requires j < |t|
    ensures multiset(Each(t, f)) == multiset(Each(t[..j] + t[j + 1..], f)) + multiset{f(t[j])}
  {
    TakenOut(Each(t, f), j);
    assert Each(t, f)[..j] + Each(t, f)[j + 1..] == Each(t[..j] + t[j + 1..], f);
  }

  lemma {:induction false} EachPermutes(s: seq<Row>, t: seq<Row>, f: Row -> real)
    requires multiset(s) == multiset(t)
    ensures multiset(Each(s, f)) == multiset(Each(t, f))
    decreases |s|
  {
    SameSize(s, t);
    if s != [] {
      var j, rest := FirstElsewhere(s, t);
      EachPermutes(s[1..], rest, f);
      EachTakenOut(t, j, f);
      assert Each(s, f)[1..] == Each(s[1..], f);
      FirstOut(Each(s, f));
    }
  }

  lemma {:induction false} TotalTakenOut(s: seq<real>, j: nat)
    requires j < |s|
    ensures Total(s) == s[j] + Total(s[..j] + s[j + 1..])
    decreases j
  {
    if j == 0 {
      assert s[..0] + s[1..] == s[1..];
    } else {
      var rest := s[..j] + s[j + 1..];
      TotalTakenOut(s[1..], j - 1);
      assert rest[1..] == s[1..][..j - 1] + s[1..][j..];
    }
  }

  lemma {:induction false} TotalPermutes(s: seq<real>, t: seq<real>)
    requires multiset(s) == multiset(t)
    ensures Total(s) == Total(t)
    decreases |s|
  {
    SameSize(s, t);
    if s != [] {
      var j, rest := FirstElsewhere(s, t);
      TotalPermutes(s[1..], rest);
      TotalTakenOut(t, j);
    }
  }

  // ---- lined up by pair ----

  predicate Ascending(rows: seq<Row>) {
    forall i, j :: 0 <= i < j < |rows| ==> rows[i].pair < rows[j].pair
  }

  lemma {:induction false} InsertAscends(row: Row, rows: seq<Row>)
    requires Ascending(rows) && forall i :: 0 <= i < |rows| ==> rows[i].pair != row.pair
    ensures Ascending(InsertByPair(row, rows))
    decreases |rows|
  {
    if rows != [] && row.pair > rows[0].pair {
      InsertAscends(row, rows[1..]);
      InsertedRows(row, rows[1..]);
      var rest := InsertByPair(row, rows[1..]);
      forall j | 0 <= j < |rest| ensures rows[0].pair < rest[j].pair {
        assert rest[j] in multiset(rest);
        assert rest[j] == row || rest[j] in rows[1..];
      }
    }
  }

  lemma {:induction false} GroupAscends(rows: seq<Row>, workload: string, arm: string)
    requires PairsDiffer(rows)
    ensures Ascending(ArmRows(rows, workload, arm))
    decreases |rows|
  {
    if rows != [] {
      GroupAscends(rows[1..], workload, arm);
      var group := ArmRows(rows[1..], workload, arm);
      if IsOn(rows[0], workload, arm) {
        forall i | 0 <= i < |group| ensures group[i].pair != rows[0].pair {
          GroupMembers(rows[1..], workload, arm, group[i]);
          var j :| 0 <= j < |rows[1..]| && rows[1..][j] == group[i];
          assert rows[j + 1] == group[i];
        }
        InsertAscends(rows[0], group);
      }
    }
  }

  function PairsOf(rows: seq<Row>): (r: seq<nat>)
    ensures |r| == |rows| && forall i :: 0 <= i < |rows| ==> r[i] == rows[i].pair
  {
    seq(|rows|, i requires 0 <= i < |rows| => rows[i].pair)
  }

  predicate Rising(s: seq<nat>) {
    forall i, j :: 0 <= i < j < |s| ==> s[i] < s[j]
  }

  /** Rising sequences of the same numbers are equal. */
  lemma {:induction false} RisingIsUnique(s: seq<nat>, t: seq<nat>)
    requires Rising(s) && Rising(t) && forall n :: n in s <==> n in t
    ensures s == t
    decreases |s|
  {
    if t != [] {
      assert t[0] in s;
    }
    if s != [] {
      assert s[0] in t;
      assert s[0] == t[0];
      forall n ensures n in s[1..] <==> n in t[1..] {
        RisingTail(s, n);
        RisingTail(t, n);
      }
      RisingIsUnique(s[1..], t[1..]);
      assert s == [s[0]] + s[1..] && t == [t[0]] + t[1..];
    }
  }

  lemma {:induction false} RisingTail(s: seq<nat>, n: nat)
    requires Rising(s) && s != []
    ensures n in s[1..] <==> n in s && n != s[0]
  {
    assert s == [s[0]] + s[1..];
  }

  /** The two groups of a paired run are lined up. */
  lemma {:induction false} LinedUp(pins: Pins, rows: seq<Row>, workload: string)
    requires Paired(pins, rows)
    ensures var a, b := ArmRows(rows, workload, RefArm(pins)), ArmRows(rows, workload, pins.candidate);
      Ascending(a) && Ascending(b) && |a| == |b| && forall i :: 0 <= i < |a| ==> a[i].pair == b[i].pair
  {
    var a, b := ArmRows(rows, workload, RefArm(pins)), ArmRows(rows, workload, pins.candidate);
    GroupAscends(rows, workload, RefArm(pins));
    GroupAscends(rows, workload, pins.candidate);
    forall n ensures n in PairsOf(a) <==> n in PairsOf(b) {
      GroupPairs(rows, workload, RefArm(pins), n);
      GroupPairs(rows, workload, pins.candidate, n);
    }
    RisingIsUnique(PairsOf(a), PairsOf(b));
  }

  lemma {:induction false} GroupPairs(rows: seq<Row>, workload: string, arm: string, n: nat)
    ensures n in PairsOf(ArmRows(rows, workload, arm)) <==> n in PairNumbers(rows, workload, arm)
  {
    var g := ArmRows(rows, workload, arm);
    if n in PairsOf(g) {
      var i :| 0 <= i < |g| && g[i].pair == n;
      GroupMembers(rows, workload, arm, g[i]);
    }
    if n in PairNumbers(rows, workload, arm) {
      var r :| r in rows && IsOn(r, workload, arm) && r.pair == n;
      GroupMembers(rows, workload, arm, r);
      var i :| 0 <= i < |g| && g[i] == r;
      assert PairsOf(g)[i] == n;
    }
  }

  lemma {:induction false} PartnerFound(rows: seq<Row>, workload: string, arm: string, pair: nat)
    ensures var p := Partner(rows, workload, arm, pair);
      && (p.Some? ==> p.value in rows && IsOn(p.value, workload, arm) && p.value.pair == pair)
      && (p.None? ==> forall r :: r in rows && IsOn(r, workload, arm) ==> r.pair != pair)
    decreases |rows|
  {
    if rows != [] {
      PartnerFound(rows[1..], workload, arm, pair);
      assert rows == [rows[0]] + rows[1..];
    }
  }

  lemma {:induction false} AscendingUnique(rows: seq<Row>, i: nat, r: Row)
    requires Ascending(rows) && i < |rows| && r in rows && r.pair == rows[i].pair
    ensures r == rows[i]
  {
    var j :| 0 <= j < |rows| && rows[j] == r;
    assert !(i < j) && !(j < i);
  }

  /** The partner of the candidate's run at a position is the reference's run there. */
  lemma {:induction false} PartnerIsLinedUp(pins: Pins, rows: seq<Row>, workload: string, i: nat)
    requires Paired(pins, rows) && i < |ArmRows(rows, workload, pins.candidate)|
    ensures var a, b := ArmRows(rows, workload, RefArm(pins)), ArmRows(rows, workload, pins.candidate);
      && i < |a| && IsOn(b[i], workload, pins.candidate)
      && Partner(rows, workload, RefArm(pins), b[i].pair) == Some(a[i])
  {
    var a, b := ArmRows(rows, workload, RefArm(pins)), ArmRows(rows, workload, pins.candidate);
    LinedUp(pins, rows, workload);
    GroupMembers(rows, workload, pins.candidate, b[i]);
    GroupMembers(rows, workload, RefArm(pins), a[i]);
    PartnerFound(rows, workload, RefArm(pins), b[i].pair);
    var p := Partner(rows, workload, RefArm(pins), b[i].pair).value;
    GroupMembers(rows, workload, RefArm(pins), p);
    AscendingUnique(a, i, p);
  }
}
