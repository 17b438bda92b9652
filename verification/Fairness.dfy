/**
  Exact fairness of the smooth scheduler: quotas after every prefix of a run,
  exact shares after every full cycle, and periodicity of the whole schedule.
*/
module Fairness {
  import opened Sums
  import opened Smooth

  /** The slots after `t` passes with one fixed eligible set. */
  function Run(slots: seq<Slot>, el: seq<bool>, t: nat): (r: seq<Slot>)
    requires |slots| == |el|
    ensures |r| == |slots|
  {
    if t == 0 then slots else Pass(Run(slots, el, t - 1), el).slots
  }

  /** The slot elected by pass number `t`, counting from zero. */
  function Elected(slots: seq<Slot>, el: seq<bool>, t: nat): int
    requires |slots| == |el|
  {
    Pass(Run(slots, el, t), el).winner
  }

  /** How often slot `i` is elected in the first `t` passes. */
  function Wins(slots: seq<Slot>, el: seq<bool>, i: nat, t: nat): nat
    requires |slots| == |el|
  {
    if t == 0 then 0
    else Wins(slots, el, i, t - 1) + if Elected(slots, el, t - 1) == i then 1 else 0
  }

  /** What `Peer.init` leaves behind, restricted to the eligible slots: nothing owed, nothing degraded. */
  ghost predicate Fresh(slots: seq<Slot>, el: seq<bool>) {
    && |slots| == |el|
    && (exists i :: 0 <= i < |el| && el[i])
    && forall i :: 0 <= i < |el| && el[i] ==> slots[i].current == 0 && slots[i].effective == slots[i].weight >= 1
  }

  function Total(slots: seq<Slot>, el: seq<bool>): int
    requires |slots| == |el|
  {
    Sum(Weights(slots, el))
  }

  lemma TotalPositive(slots: seq<Slot>, el: seq<bool>)
    requires Fresh(slots, el)
    ensures Total(slots, el) >= 1
  {
    var i :| 0 <= i < |el| && el[i];
    SumAtLeast(Weights(slots, el), i);
  }

  /** The winner of a pass over a balanced, undegraded set stays above minus the total. */
  lemma WinnerStaysAbove(slots: seq<Slot>, el: seq<bool>, total: int)
    requires |slots| == |el|
    requires total == Sum(Gains(slots, el)) >= 1 && Sum(Currents(slots, el)) == 0
    requires exists i :: 0 <= i < |el| && el[i]
    ensures var r := Pass(slots, el); 0 <= r.winner < |r.slots| && r.slots[r.winner].current > -total
  {
    var up := Bumped(slots, el);
    var b := Pass(slots, el).winner;
    LeaderIsFirstMaximum(up, el, |up|);
    SumAdd(Currents(slots, el), Gains(slots, el), Currents(up, el));
    if up[b].current <= 0 {
      SumMonotone(Currents(up, el), seq(|up|, i => 0));
      SumZero(seq(|up|, i => 0));
    }
  }

  /** Slot `s` after `t` passes in which it won `n` times: it owes what it won beyond its share, and never a whole total. */
  ghost predicate Booked(s: Slot, weight: int, t: nat, n: nat, total: int) {
    && s.weight == s.effective == weight
    && s.current == t * weight - n * total
    && s.current > -total
  }

  ghost predicate Books(slots: seq<Slot>, el: seq<bool>, t: nat)
    requires |slots| == |el|
  {
    forall i :: 0 <= i < |el| ==>
      if el[i] then Booked(Run(slots, el, t)[i], slots[i].weight, t, Wins(slots, el, i, t), Total(slots, el))
      else Run(slots, el, t)[i] == slots[i]
  }

  lemma {:induction false} BooksBalance(slots: seq<Slot>, el: seq<bool>, t: nat)
    requires Fresh(slots, el)
    ensures Books(slots, el, t)
    ensures Sum(Currents(Run(slots, el, t), el)) == 0
  {
    hide Pass;
    TotalPositive(slots, el);
    if t == 0 {
      SumZero(Currents(slots, el));
    } else {
      BooksBalance(slots, el, t - 1);
      var prev := Run(slots, el, t - 1);
      var total := Total(slots, el);
      assert Gains(prev, el) == Weights(slots, el);
      PassConserves(prev, el);
      WinnerStaysAbove(prev, el, total);
      forall i | 0 <= i < |el|
        ensures if el[i] then Booked(Run(slots, el, t)[i], slots[i].weight, t, Wins(slots, el, i, t), total)
                else Run(slots, el, t)[i] == slots[i]
      {
        PassAt(prev, el, i);
        if el[i] {
          BookOnePass(prev, el, i, slots[i].weight, t - 1, Wins(slots, el, i, t - 1), total);
        }
      }
    }
  }

  lemma BookOnePass(slots: seq<Slot>, el: seq<bool>, i: nat, weight: int, t: nat, n: nat, total: int)
    requires |slots| == |el| && i < |el| && el[i] && weight >= 1
    requires Booked(slots[i], weight, t, n, total) && total == Sum(Gains(slots, el))
    requires Pass(slots, el).winner == i ==> Pass(slots, el).slots[i].current > -total
    ensures |Pass(slots, el).slots| == |slots|
    ensures Booked(Pass(slots, el).slots[i], weight, t + 1,
                   n + if Pass(slots, el).winner == i then 1 else 0, total)
  {
    PassAt(slots, el, i);
    assert t * weight + weight == (t + 1) * weight;
    assert n * total + total == (n + 1) * total;
  }

  /** Prefix quota: after any number of passes no peer is a whole turn ahead of its share. */
  lemma PrefixQuota(slots: seq<Slot>, el: seq<bool>, i: nat, t: nat)
    requires Fresh(slots, el) && i < |el| && el[i]
    ensures Wins(slots, el, i, t) * Total(slots, el) < t * slots[i].weight + Total(slots, el)
  {
    BooksBalance(slots, el, t);
  }

  /** Exact fairness: after `k` full cycles each peer was elected `k` times its weight, and nothing is owed. */
  lemma ExactShare(slots: seq<Slot>, el: seq<bool>, k: nat)
    requires Fresh(slots, el)
    ensures Total(slots, el) >= 1
    ensures forall i :: 0 <= i < |el| && el[i] ==>
              Wins(slots, el, i, k * Total(slots, el)) == k * slots[i].weight
    ensures Run(slots, el, k * Total(slots, el)) == slots
  {
    hide Pass;
    TotalPositive(slots, el);
    var total := Total(slots, el);
    var t := k * total;
    BooksBalance(slots, el, t);
    var now := Run(slots, el, t);
    forall i | 0 <= i < |el| && el[i]
      ensures now[i].current == (k * slots[i].weight - Wins(slots, el, i, t)) * total
      ensures now[i].current >= 0
    {
      WholeTurns(k, slots[i].weight, Wins(slots, el, i, t), total, now[i].current);
    }
    NonNegativeSumZero(Currents(now, el));
    forall i | 0 <= i < |el| && el[i]
      ensures now[i] == slots[i] && Wins(slots, el, i, t) == k * slots[i].weight
    {
      assert Currents(now, el)[i] == 0;
      ZeroTurns(k * slots[i].weight - Wins(slots, el, i, t), total);
    }
  }

  lemma WholeTurns(k: int, w: int, n: int, total: int, c: int)
    requires total >= 1 && c == (k * total) * w - n * total && c > -total
    ensures c == (k * w - n) * total && c >= 0
  {
    assert (k * total) * w == (k * w) * total;
    var d := k * w - n;
    assert c == d * total;
    assert d < 0 ==> (d + 1) * total <= 0;
  }

  lemma ZeroTurns(d: int, total: int)
    requires total >= 1 && d * total == 0
    ensures d == 0
  {
  }

  lemma {:induction false} RunSplit(slots: seq<Slot>, el: seq<bool>, a: nat, b: nat)
    requires |slots| == |el|
    ensures Run(slots, el, a + b) == Run(Run(slots, el, a), el, b)
  {
    hide Pass;
    if b > 0 {
      RunSplit(slots, el, a, b - 1);
    }
  }

  /** The whole schedule repeats itself with period `Total`. */
  lemma SchedulePeriodic(slots: seq<Slot>, el: seq<bool>, k: nat, t: nat)
    requires Fresh(slots, el)
    ensures Total(slots, el) >= 1
    ensures Elected(slots, el, k * Total(slots, el) + t) == Elected(slots, el, t)
  {
    hide Pass;
    ExactShare(slots, el, k);
    var cycles := k * Total(slots, el);
    assert cycles >= 0;
    RunSplit(slots, el, cycles, t);
    assert Run(slots, el, cycles + t) == Run(slots, el, t);
  }
}
