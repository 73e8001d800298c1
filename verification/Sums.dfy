/** Sums of weights over sequences, for conservation arguments. */
module Sums {

  function Sum<T>(s: seq<T>, weight: T -> nat): nat {
    if s == [] then 0 else Sum(s[..|s| - 1], weight) + weight(s[|s| - 1])
  }

  lemma SumAppend<T>(s: seq<T>, x: T, weight: T -> nat)
    ensures Sum(s + [x], weight) == Sum(s, weight) + weight(x)
  {
    assert (s + [x])[..|s|] == s;
  }

  lemma {:induction false} SumUpdate<T>(s: seq<T>, i: nat, x: T, weight: T -> nat)
    requires i < |s|
    ensures Sum(s[i := x], weight) + weight(s[i]) == Sum(s, weight) + weight(x)
  {
    var last := |s| - 1;
    if i == last {
      assert s[i := x][..last] == s[..last];
    } else {
      SumUpdate(s[..last], i, x, weight);
      assert s[i := x][..last] == s[..last][i := x];
    }
  }

  lemma {:induction false} SumFirst<T>(s: seq<T>, weight: T -> nat)
    requires s != []
    ensures Sum(s, weight) == weight(s[0]) + Sum(s[1..], weight)
  {
    var last := |s| - 1;
    if last > 0 {
      SumFirst(s[..last], weight);
      assert s[..last][1..] == s[1..][..last - 1];
    }
  }

  function Carriers<T>(s: seq<T>, weight: T -> nat): set<int> {
    set i | 0 <= i < |s| && weight(s[i]) > 0
  }

  /** No more elements carry weight than the total. */
  lemma {:induction false} SumCounts<T>(s: seq<T>, weight: T -> nat)
    ensures |Carriers(s, weight)| <= Sum(s, weight)
  {
    if s == [] {
      assert Carriers(s, weight) == {};
    } else {
      var last := |s| - 1;
      SumCounts(s[..last], weight);
      assert Carriers(s, weight) == Carriers(s[..last], weight) + (if weight(s[last]) > 0 then {last} else {});
    }
  }

  lemma {:induction false} SumIsMonotone<T>(s: seq<T>, light: T -> nat, heavy: T -> nat)
    requires forall x :: light(x) <= heavy(x)
    ensures Sum(s, light) <= Sum(s, heavy)
  {
    if s != [] {
      SumIsMonotone(s[..|s| - 1], light, heavy);
    }
  }

  /** When every element weighs at most one, the total is how many carry weight. */
  lemma {:induction false} SumIsCount<T>(s: seq<T>, weight: T -> nat)
    requires forall i :: 0 <= i < |s| ==> weight(s[i]) <= 1
    ensures |Carriers(s, weight)| == Sum(s, weight)
  {
    if s == [] {
      assert Carriers(s, weight) == {};
    } else {
      var last := |s| - 1;
      SumIsCount(s[..last], weight);
      assert Carriers(s, weight) == Carriers(s[..last], weight) + (if weight(s[last]) > 0 then {last} else {});
    }
  }

  lemma {:induction false} SumOfNothing<T>(s: seq<T>, weight: T -> nat)
    requires forall i :: 0 <= i < |s| ==> weight(s[i]) == 0
    ensures Sum(s, weight) == 0
  {
    if s != [] {
      SumOfNothing(s[..|s| - 1], weight);
    }
  }
}
