/**
 `statistics.median` over reals, and its pointwise monotonicity.
 */
module Median {
  import opened Permutations

  function Insert(x: real, sorted: seq<real>): seq<real> {
    if sorted == [] || x <= sorted[0] then [x] + sorted else [sorted[0]] + Insert(x, sorted[1..])
  }

  function Sort(s: seq<real>): seq<real> {
    if s == [] then [] else Insert(s[0], Sort(s[1..]))
  }

  predicate Sorted(s: seq<real>) {
    forall i, j :: 0 <= i < j < |s| ==> s[i] <= s[j]
  }

  /** The middle value, or the mean of the two middle ones. */
  function Median(s: seq<real>): real
    requires s != []
  {
    SortSorts(s);
    var t, n := Sort(s), |s|;
    if n % 2 == 1 then t[n / 2] else (t[n / 2 - 1] + t[n / 2]) / 2.0
  }

  /** How many values are at most `v`. */
  function Below(s: seq<real>, v: real): nat {
    if s == [] then 0 else (if s[0] <= v then 1 else 0) + Below(s[1..], v)
  }

  lemma {:induction false} InsertKeeps(x: real, s: seq<real>)
    ensures multiset(Insert(x, s)) == multiset(s) + multiset{x}
    decreases |s|
  {
    if s != [] && x > s[0] {
      InsertKeeps(x, s[1..]);
      assert s == [s[0]] + s[1..];
    }
  }

  lemma {:induction false} InsertAbove(x: real, s: seq<real>, low: real)
    requires low <= x && forall i :: 0 <= i < |s| ==> low <= s[i]
    ensures forall i :: 0 <= i < |Insert(x, s)| ==> low <= Insert(x, s)[i]
    decreases |s|
  {
    if s != [] && x > s[0] {
      InsertAbove(x, s[1..], low);
    }
  }

  lemma {:induction false} InsertSorts(x: real, s: seq<real>)
    requires Sorted(s)
    ensures Sorted(Insert(x, s))
    decreases |s|
  {
    if s != [] && x > s[0] {
      InsertSorts(x, s[1..]);
      InsertAbove(x, s[1..], s[0]);
    }
  }

  lemma {:induction false} SortSorts(s: seq<real>)
    ensures Sorted(Sort(s)) && multiset(Sort(s)) == multiset(s) && |Sort(s)| == |s|
    decreases |s|
  {
    if s != [] {
      SortSorts(s[1..]);
      InsertSorts(s[0], Sort(s[1..]));
      InsertKeeps(s[0], Sort(s[1..]));
      assert s == [s[0]] + s[1..];
    }
    assert |multiset(Sort(s))| == |multiset(s)|;
  }

  lemma {:induction false} BelowInsert(x: real, s: seq<real>, v: real)
    ensures Below(Insert(x, s), v) == Below(s, v) + if x <= v then 1 else 0
    decreases |s|
  {
    if s == [] || x <= s[0] {
      assert ([x] + s)[1..] == s;
    } else {
      BelowInsert(x, s[1..], v);
      assert ([s[0]] + Insert(x, s[1..]))[1..] == Insert(x, s[1..]);
    }
  }

  lemma {:induction false} BelowSort(s: seq<real>, v: real)
    ensures Below(Sort(s), v) == Below(s, v)
    decreases |s|
  {
    if s != [] {
      BelowSort(s[1..], v);
      BelowInsert(s[0], Sort(s[1..]), v);
    }
  }

  lemma {:induction false} BelowBound(s: seq<real>, v: real)
    ensures Below(s, v) <= |s|
    ensures (forall i :: 0 <= i < |s| ==> v < s[i]) ==> Below(s, v) == 0
    decreases |s|
  {
    if s != [] {
      BelowBound(s[1..], v);
    }
  }

  /** In a sorted sequence, position `k` is at most `v` exactly if more than `k` values are. */
  lemma {:induction false} Rank(s: seq<real>, k: nat, v: real)
    requires Sorted(s) && k < |s|
    ensures s[k] <= v <==> Below(s, v) > k
    decreases |s|
  {
    if k > 0 {
      Rank(s[1..], k - 1, v);
      if s[0] > v {
        BelowBound(s[1..], v);
      }
    } else if s[0] > v {
      BelowBound(s[1..], v);
    }
  }

  predicate Pointwise(s: seq<real>, t: seq<real>) {
    |s| == |t| && forall i :: 0 <= i < |s| ==> s[i] <= t[i]
  }

  lemma {:induction false} BelowFalls(s: seq<real>, t: seq<real>, v: real)
    requires Pointwise(s, t)
    ensures Below(t, v) <= Below(s, v)
    decreases |s|
  {
    if s != [] {
      BelowFalls(s[1..], t[1..], v);
    }
  }

  /** Raising any of the values raises every order statistic. */
  lemma {:induction false} OrderStatisticsGrow(s: seq<real>, t: seq<real>, k: nat)
    requires Pointwise(s, t) && k < |s|
    ensures |Sort(s)| == |Sort(t)| == |s| && Sort(s)[k] <= Sort(t)[k]
  {
    SortSorts(s);
    SortSorts(t);
    var v := Sort(t)[k];
    Rank(Sort(t), k, v);
    BelowSort(t, v);
    BelowFalls(s, t, v);
    BelowSort(s, v);
    Rank(Sort(s), k, v);
  }

  /** The median is monotone in every value. */
  lemma {:induction false} MedianGrows(s: seq<real>, t: seq<real>)
    requires Pointwise(s, t) && s != []
    ensures Median(s) <= Median(t)
  {
    var n := |s|;
    OrderStatisticsGrow(s, t, n / 2);
    if n % 2 == 0 {
      OrderStatisticsGrow(s, t, n / 2 - 1);
    }
  }

  /** Two sorted sequences of the same values are equal. */
  lemma {:induction false} SortedIsUnique(s: seq<real>, t: seq<real>)
    requires Sorted(s) && Sorted(t) && multiset(s) == multiset(t)
    ensures s == t
    decreases |s|
  {
    SameSize(s, t);
    if s != [] {
      assert s[0] in multiset(t) && t[0] in multiset(s);
      assert s[0] == t[0];
      FirstOut(s);
      FirstOut(t);
      assert multiset(s[1..]) == multiset(t) - multiset{t[0]};
      SortedIsUnique(s[1..], t[1..]);
    }
  }

  /** The median does not depend on the order of the values. */
  lemma {:induction false} MedianPermutes(s: seq<real>, t: seq<real>)
    requires multiset(s) == multiset(t) && s != []
    ensures t != [] && Median(s) == Median(t)
  {
    SortSorts(s);
    SortSorts(t);
    SortedIsUnique(Sort(s), Sort(t));
  }

  /** The median is the middle one of the values in order, or half the sum of the two in the middle. */
  lemma {:induction false} MedianIsMiddle(s: seq<real>, t: seq<real>)
    requires s != [] && multiset(t) == multiset(s) && forall i, j :: 0 <= i < j < |t| ==> t[i] <= t[j]
    ensures |t| == |s|
    ensures Median(s) == if |s| % 2 == 1 then t[|s| / 2] else (t[|s| / 2 - 1] + t[|s| / 2]) / 2.0
  {
    SortSorts(s);
    SameSize(s, t);
    SortedIsUnique(Sort(s), t);
  }

  /** Of an odd number of values the median is at most `v` exactly if more than half of them are. */
  lemma {:induction false} MajorityDecides(s: seq<real>, v: real)
    requires |s| % 2 == 1
    ensures Median(s) <= v <==> Below(s, v) > |s| / 2
  {
    SortSorts(s);
    Rank(Sort(s), |s| / 2, v);
    BelowSort(s, v);
  }
}
