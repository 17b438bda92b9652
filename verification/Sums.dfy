/** Sums of integer sequences, and the few facts about them that the schedulers need. */
module Sums {

  function Sum(s: seq<int>): int {
    if s == [] then 0 else Sum(s[..|s| - 1]) + s[|s| - 1]
  }

  lemma {:induction false} SumUpdate(s: seq<int>, i: nat, v: int)
    requires i < |s|
    ensures Sum(s[i := v]) == Sum(s) - s[i] + v
  {
    var last := |s| - 1;
    if i == last {
      assert s[i := v][..last] == s[..last];
    } else {
      SumUpdate(s[..last], i, v);
      assert s[i := v][..last] == s[..last][i := v];
    }
  }

  lemma {:induction false} SumAdd(a: seq<int>, b: seq<int>, c: seq<int>)
    requires |a| == |b| == |c|
    requires forall i :: 0 <= i < |a| ==> c[i] == a[i] + b[i]
    ensures Sum(c) == Sum(a) + Sum(b)
  {
    if a != [] {
      SumAdd(a[..|a| - 1], b[..|b| - 1], c[..|c| - 1]);
    }
  }

  /** Pointwise order carries over to sums. */
  lemma {:induction false} SumMonotone(a: seq<int>, b: seq<int>)
    requires |a| == |b|
    requires forall i :: 0 <= i < |a| ==> a[i] <= b[i]
    ensures Sum(a) <= Sum(b)
  {
    if a != [] {
      SumMonotone(a[..|a| - 1], b[..|b| - 1]);
    }
  }

  /** A member of a sequence of naturals is at most the sum. */
  lemma {:induction false} SumAtLeast(s: seq<int>, i: nat)
    requires i < |s| && forall k :: 0 <= k < |s| ==> s[k] >= 0
    ensures s[i] <= Sum(s)
  {
    var zeros := seq(|s|, k => 0)[i := s[i]];
    SumMonotone(zeros, s);
    SumUpdate(seq(|s|, k => 0), i, s[i]);
    SumZero(seq(|s|, k => 0));
  }

  lemma {:induction false} SumZero(s: seq<int>)
    requires forall i :: 0 <= i < |s| ==> s[i] == 0
    ensures Sum(s) == 0
  {
    if s != [] {
      SumZero(s[..|s| - 1]);
    }
  }

  /** Non-negative numbers that add up to zero are all zero. */
  lemma NonNegativeSumZero(s: seq<int>)
    requires Sum(s) <= 0
    requires forall i :: 0 <= i < |s| ==> s[i] >= 0
    ensures forall i :: 0 <= i < |s| ==> s[i] == 0
  {
    forall i | 0 <= i < |s| ensures s[i] == 0 {
      SumAtLeast(s, i);
    }
  }
}
