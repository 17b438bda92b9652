/**
  What survives failures: the ranges and the conserved sum in every reachable state
  of the scheduler, and a bound on how long an eligible peer can be passed over.
*/
module BoundedWait {
  import opened Sums
  import opened Smooth
  import opened Fairness

  /** One critical section's effect on the slots: a pass, or a failure report that degrades one peer. */
  datatype Event = Passed(el: seq<bool>) | Degraded(peer: nat, maxFails: int)

  ghost predicate Possible(n: nat, e: Event) {
    match e
    case Passed(el) => |el| == n
    case Degraded(i, _) => i < n
  }

  function Step(slots: seq<Slot>, e: Event): seq<Slot>
    requires Possible(|slots|, e)
  {
    match e
    case Passed(el) => Pass(slots, el).slots
    case Degraded(i, maxFails) => slots[i := Degrade(slots[i], maxFails)]
  }

  function History(slots: seq<Slot>, es: seq<Event>): (r: seq<Slot>)
    requires forall k :: 0 <= k < |es| ==> Possible(|slots|, es[k])
    ensures |r| == |slots|
  {
    if es == [] then slots
    else
      var before := History(slots, es[..|es| - 1]);
      assert Possible(|before|, es[|es| - 1]);
      Step(before, es[|es| - 1])
  }

  /**
    After any mixture of passes over arbitrary eligible sets and failure reports, the
    effective weights are in range and the current weights of the group still add up
    to what they started from.
  */
  lemma {:induction false} HistoryConserves(slots: seq<Slot>, es: seq<Event>)
    requires Sound(slots)
    requires forall k :: 0 <= k < |es| ==> Possible(|slots|, es[k])
    ensures var all := AllEligible(|slots|);
            && Sound(History(slots, es))
            && Sum(Currents(History(slots, es), all)) == Sum(Currents(slots, all))
    ensures forall i :: 0 <= i < |slots| ==> History(slots, es)[i].weight == slots[i].weight
  {
    if es != [] {
      HistoryConserves(slots, es[..|es| - 1]);
      var before := History(slots, es[..|es| - 1]);
      var all := AllEligible(|slots|);
      match es[|es| - 1]
      case Passed(el) =>
        PassFrame(before, el);
        PassConservesSuperset(before, el, all);
      case Degraded(i, maxFails) =>
        DegradeInRange(before[i], maxFails);
        assert Currents(History(slots, es), all) == Currents(before, all);
    }
  }

  /** No eligible slot is below `floor`. */
  ghost predicate Above(slots: seq<Slot>, el: seq<bool>, floor: int)
    requires |slots| == |el|
  {
    forall i :: 0 <= i < |el| && el[i] ==> slots[i].current >= floor
  }

  /** The lowest eligible current weight. */
  function Lowest(slots: seq<Slot>, el: seq<bool>, n: nat): (m: int)
    requires |slots| == |el| && n <= |el|
    ensures forall i :: 0 <= i < n && el[i] ==> m <= slots[i].current
    ensures (exists i :: 0 <= i < n && el[i]) ==> exists i :: 0 <= i < n && el[i] && slots[i].current == m
  {
    if n == 0 then 0
    else
      var m := Lowest(slots, el, n - 1);
      if el[n - 1] && (slots[n - 1].current < m || forall i :: 0 <= i < n - 1 ==> !el[i])
      then slots[n - 1].current else m
  }

  /** An election never pushes its winner more than the total weight under the starting floor. */
  lemma WinnerFloor(slots: seq<Slot>, el: seq<bool>, floor: int)
    requires |slots| == |el| && Sound(slots)
    requires exists i :: 0 <= i < |el| && el[i]
    requires Sum(Currents(slots, el)) >= Sum(Repeated(el, floor))
    ensures var r := Pass(slots, el);
            0 <= r.winner < |r.slots| && r.slots[r.winner].current >= floor - Total(slots, el)
  {
    var up, gains := Bumped(slots, el), Gains(slots, el);
    var b := Pass(slots, el).winner;
    LeaderIsFirstMaximum(up, el, |up|);
    SumAdd(Currents(slots, el), gains, Currents(up, el));
    SumMonotone(gains, Weights(slots, el));
    SumMonotone(seq(|el|, i => 0), gains);
    SumZero(seq(|el|, i => 0));
    if up[b].current < floor {
      SumMonotone(Currents(up, el), Repeated(el, floor - 1));
      RepeatedStrict(el, floor, b);
    }
  }

  function Repeated(el: seq<bool>, v: int): seq<int> {
    seq(|el|, i requires 0 <= i < |el| => if el[i] then v else 0)
  }

  lemma RepeatedStrict(el: seq<bool>, v: int, b: nat)
    requires b < |el| && el[b]
    ensures Sum(Repeated(el, v - 1)) < Sum(Repeated(el, v))
  {
    var low := Repeated(el, v - 1);
    SumUpdate(low, b, v);
    SumMonotone(low[b := v], Repeated(el, v));
  }

  lemma PassFloor(slots: seq<Slot>, el: seq<bool>, floor: int, total: int)
    requires |slots| == |el| && Sound(slots) && total == Total(slots, el)
    requires Above(slots, el, floor - total)
    requires exists i :: 0 <= i < |el| && el[i]
    requires Sum(Currents(slots, el)) >= Sum(Repeated(el, floor))
    ensures var next := Pass(slots, el).slots;
            && |next| == |slots| && Sound(next)
            && Weights(next, el) == Weights(slots, el)
            && Sum(Currents(next, el)) == Sum(Currents(slots, el))
            && Above(next, el, floor - total)
  {
    PassConserves(slots, el);
    WinnerFloor(slots, el, floor);
    forall i | 0 <= i < |el|
      ensures var s := Pass(slots, el).slots[i];
              && s.weight == slots[i].weight && 0 <= s.effective <= s.weight
              && (el[i] ==> s.current >= floor - total)
    {
      PassAt(slots, el, i);
    }
  }

  /** With the eligible set fixed, the eligible sum never moves and nobody sinks below the floor minus the total. */
  lemma {:induction false} RunFloor(slots: seq<Slot>, el: seq<bool>, floor: int, t: nat)
    requires |slots| == |el| && Sound(slots) && Above(slots, el, floor)
    requires exists i :: 0 <= i < |el| && el[i]
    ensures var now := Run(slots, el, t);
            && Sound(now)
            && Weights(now, el) == Weights(slots, el)
            && Sum(Currents(now, el)) == Sum(Currents(slots, el))
            && Above(now, el, floor - Total(slots, el))
  {
    hide Pass;
    SumMonotone(Repeated(el, floor), Currents(slots, el));
    SumMonotone(seq(|el|, i => 0), Weights(slots, el));
    SumZero(seq(|el|, i => 0));
    if t > 0 {
      RunFloor(slots, el, floor, t - 1);
      PassFloor(Run(slots, el, t - 1), el, floor, Total(slots, el));
    }
  }

  /** A slot that is passed over gains at least one per pass from the second pass on. */
  lemma {:induction false} PassedOverGains(slots: seq<Slot>, el: seq<bool>, i: nat, t: nat)
    requires |slots| == |el| && Sound(slots) && i < |el| && el[i]
    requires forall k :: 0 <= k < t ==> Elected(slots, el, k) != i
    ensures var now := Run(slots, el, t);
            && Sound(now) && now[i].weight == slots[i].weight
            && (t >= 1 ==> now[i].effective >= 1 && now[i].current >= slots[i].current + t - 1)
  {
    hide Pass;
    if t > 0 {
      PassedOverGains(slots, el, i, t - 1);
      PassFrame(Run(slots, el, t - 1), el);
      PassAt(Run(slots, el, t - 1), el, i);
      assert Elected(slots, el, t - 1) != i;
    }
  }

  /** A degraded slot recovers by one per pass it is eligible in, up to its weight and no further. */
  lemma {:induction false} RecoversByOne(slots: seq<Slot>, el: seq<bool>, i: nat, t: nat)
    requires |slots| == |el| && i < |el| && slots[i].effective <= slots[i].weight
    ensures var now := Run(slots, el, t)[i];
            now.weight == slots[i].weight
            && now.effective == if !el[i] then slots[i].effective
                                else if slots[i].effective + t <= slots[i].weight then slots[i].effective + t else slots[i].weight
  {
    hide Pass;
    if t > 0 {
      RecoversByOne(slots, el, i, t - 1);
      PassAt(Run(slots, el, t - 1), el, i);
    }
  }

  /** How far above the lowest possible level slot `j` stands now, for every eligible slot but `i`. */
  function Slack(slots: seq<Slot>, el: seq<bool>, i: nat): seq<int>
    requires |slots| == |el|
  {
    var floor := Lowest(slots, el, |el|) - Total(slots, el);
    seq(|el|, j requires 0 <= j < |el| => if el[j] && j != i then slots[j].current - floor else 0)
  }

  function WaitBound(slots: seq<Slot>, el: seq<bool>, i: nat): int
    requires |slots| == |el|
  {
    Sum(Slack(slots, el, i)) + 2
  }

  /** What slot `i` can have saved up is bounded by what the others can still owe. */
  lemma SavingsBounded(slots: seq<Slot>, now: seq<Slot>, el: seq<bool>, i: nat)
    requires |slots| == |now| == |el| && i < |el| && el[i]
    requires Sum(Currents(now, el)) == Sum(Currents(slots, el))
    requires Above(now, el, Lowest(slots, el, |el|) - Total(slots, el))
    ensures now[i].current <= slots[i].current + Sum(Slack(slots, el, i))
  {
    var before, after := Currents(slots, el), Currents(now, el);
    var raised := seq(|el|, j requires 0 <= j < |el| => after[j] + Slack(slots, el, i)[j]);
    SumAdd(after, Slack(slots, el, i), raised);
    SumUpdate(raised, i, before[i]);
    SumMonotone(before, raised[i := before[i]]);
  }

  /**
    Bounded wait: from any state with weights in range — degraded to zero or not —
    and with the eligible set held fixed, every eligible peer is elected within
    `WaitBound` passes.
  */
  lemma EveryPeerIsElected(slots: seq<Slot>, el: seq<bool>, i: nat) returns (t: nat)
    requires |slots| == |el| && Sound(slots) && i < |el| && el[i]
    ensures t < WaitBound(slots, el, i)
    ensures Elected(slots, el, t) == i
  {
    hide Pass;
    var slack := Slack(slots, el, i);
    SumMonotone(seq(|el|, k => 0), Weights(slots, el));
    SumZero(seq(|el|, k => 0));
    assert forall j :: 0 <= j < |el| ==> slack[j] >= 0;
    SumMonotone(seq(|el|, k => 0), slack);
    t := 0;
    while t < WaitBound(slots, el, i) && Elected(slots, el, t) != i
      invariant 0 <= t <= WaitBound(slots, el, i)
      invariant forall k :: 0 <= k < t ==> Elected(slots, el, k) != i
    {
      t := t + 1;
    }
    if t == WaitBound(slots, el, i) {
      var now := Run(slots, el, t);
      RunFloor(slots, el, Lowest(slots, el, |el|), t);
      PassedOverGains(slots, el, i, t);
      SavingsBounded(slots, now, el, i);
      assert false;
    }
  }

  /** In particular from every state that passes and failures can lead to. */
  lemma ReachableWait(slots: seq<Slot>, es: seq<Event>, el: seq<bool>, i: nat) returns (t: nat)
    requires Sound(slots) && |slots| == |el| && i < |el| && el[i]
    requires forall k :: 0 <= k < |es| ==> Possible(|slots|, es[k])
    ensures t < WaitBound(History(slots, es), el, i) && Elected(History(slots, es), el, t) == i
  {
    HistoryConserves(slots, es);
    t := EveryPeerIsElected(History(slots, es), el, i);
  }
}
