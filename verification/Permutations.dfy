/**
 Sequences with the same elements in another order.
 */
module Permutations {
  lemma {:induction false} Regroup<T>(a: seq<T>, b: seq<T>, c: seq<T>)
    ensures a + b + c == a + (b + c)
  {
  }

  lemma {:induction false} SameSize<T>(s: seq<T>, t: seq<T>)
    requires multiset(s) == multiset(t)
    ensures |s| == |t|
  {
    assert |multiset(s)| == |multiset(t)|;
  }

  lemma {:induction false} TakenOut<T>(s: seq<T>, j: nat)
    requires j < |s|
    ensures multiset(s) == multiset(s[..j] + s[j + 1..]) + multiset{s[j]}
  {
    assert s == s[..j] + [s[j]] + s[j + 1..];
  }

  lemma {:induction false} FirstOut<T>(s: seq<T>)
    requires s != []
    ensures multiset(s) == multiset(s[1..]) + multiset{s[0]}
  {
    assert s == [s[0]] + s[1..];
  }

  /** The first element of one sequence, found and taken out of the other. */
  lemma {:induction false} FirstElsewhere<T>(s: seq<T>, t: seq<T>) returns (j: nat, rest: seq<T>)
    requires multiset(s) == multiset(t) && s != []
    ensures j < |t| && t[j] == s[0] && rest == t[..j] + t[j + 1..] && multiset(s[1..]) == multiset(rest)
  {
    assert s[0] in multiset(t);
    j :| 0 <= j < |t| && t[j] == s[0];
    rest := t[..j] + t[j + 1..];
    TakenOut(t, j);
    FirstOut(s);
    assert multiset(s[1..]) == multiset(s) - multiset{s[0]};
    assert multiset(rest) == multiset(t) - multiset{s[0]};
  }
}
