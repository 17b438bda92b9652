/**
  The smooth weighted round-robin pass of roundrobin.go, on values.

  A `Slot` is the part of a peer the pass reads and writes.  One pass lifts every
  eligible slot by its effective weight, elects the first slot with the greatest
  current weight, and charges the winner everything that was handed out.
*/
module Smooth {
  import opened Sums

  datatype Slot = Slot(weight: int, current: int, effective: int)

  /** `winner` is an index, or -1 when no slot was eligible. */
  datatype Election = Election(slots: seq<Slot>, winner: int)

  ghost predicate Sound(slots: seq<Slot>) {
    forall i :: 0 <= i < |slots| ==> 1 <= slots[i].weight && 0 <= slots[i].effective <= slots[i].weight
  }

  function Bump(s: Slot): Slot {
    Slot(s.weight, s.current + s.effective, if s.effective < s.weight then s.effective + 1 else s.effective)
  }

  function Bumped(slots: seq<Slot>, el: seq<bool>): seq<Slot>
    requires |slots| == |el|
  {
    seq(|slots|, i requires 0 <= i < |slots| => if el[i] then Bump(slots[i]) else slots[i])
  }

  /** What a pass hands to each slot. */
  function Gains(slots: seq<Slot>, el: seq<bool>): seq<int>
    requires |slots| == |el|
  {
    seq(|slots|, i requires 0 <= i < |slots| => if el[i] then slots[i].effective else 0)
  }

  /** The current weights of the eligible slots, zero elsewhere. */
  function Currents(slots: seq<Slot>, el: seq<bool>): seq<int>
    requires |slots| == |el|
  {
    seq(|slots|, i requires 0 <= i < |slots| => if el[i] then slots[i].current else 0)
  }

  /** The configured weights of the eligible slots, zero elsewhere. */
  function Weights(slots: seq<Slot>, el: seq<bool>): seq<int>
    requires |slots| == |el|
  {
    seq(|slots|, i requires 0 <= i < |slots| => if el[i] then slots[i].weight else 0)
  }

  function AllEligible(n: nat): seq<bool> {
    seq(n, i => true)
  }

  /** The first eligible slot, among the first `n`, with the greatest current weight; -1 if there is none. */
  function Leader(slots: seq<Slot>, el: seq<bool>, n: nat): (b: int)
    requires |slots| == |el| && n <= |slots|
    ensures -1 <= b < n && (b >= 0 ==> el[b])
  {
    if n == 0 then -1
    else
      var b := Leader(slots, el, n - 1);
      if el[n - 1] && (b == -1 || slots[n - 1].current > slots[b].current) then n - 1 else b
  }

  lemma {:induction false} LeaderIsFirstMaximum(slots: seq<Slot>, el: seq<bool>, n: nat)
    requires |slots| == |el| && n <= |slots|
    ensures var b := Leader(slots, el, n);
            && (b == -1 <==> forall j :: 0 <= j < n ==> !el[j])
            && (b >= 0 ==>
                  && (forall j :: 0 <= j < n && el[j] ==> slots[j].current <= slots[b].current)
                  && (forall j :: 0 <= j < b && el[j] ==> slots[j].current < slots[b].current))
  {
    if n > 0 {
      LeaderIsFirstMaximum(slots, el, n - 1);
    }
  }

  function Charge(slots: seq<Slot>, b: int, total: int): seq<Slot>
    requires -1 <= b < |slots|
  {
    if b == -1 then slots else slots[b := slots[b].(current := slots[b].current - total)]
  }

  function Pass(slots: seq<Slot>, el: seq<bool>): Election
    requires |slots| == |el|
  {
    var up := Bumped(slots, el);
    var b := Leader(up, el, |up|);
    Election(Charge(up, b, Sum(Gains(slots, el))), b)
  }

  /** Whatever is eligible, a pass keeps every range and leaves the ineligible slots alone. */
  lemma PassFrame(slots: seq<Slot>, el: seq<bool>)
    requires |slots| == |el|
    ensures var r := Pass(slots, el);
            && |r.slots| == |slots|
            && (Sound(slots) ==> Sound(r.slots))
            && (forall i :: 0 <= i < |slots| ==> r.slots[i].weight == slots[i].weight)
            && (forall i :: 0 <= i < |slots| && !el[i] ==> r.slots[i] == slots[i])
            && (forall i :: 0 <= i < |slots| ==> r.slots[i].effective >= slots[i].effective || r.slots[i].effective >= slots[i].weight)
            && -1 <= r.winner < |slots| && (r.winner >= 0 ==> el[r.winner])
            && (r.winner == -1 <==> forall i :: 0 <= i < |el| ==> !el[i])
  {
    LeaderIsFirstMaximum(Bumped(slots, el), el, |slots|);
  }

  /** What a pass does to one slot. */
  lemma PassAt(slots: seq<Slot>, el: seq<bool>, i: nat)
    requires |slots| == |el| && i < |el|
    ensures |Pass(slots, el).slots| == |slots|
    ensures Pass(slots, el).slots[i] ==
            if !el[i] then slots[i]
            else if Pass(slots, el).winner != i then Bump(slots[i])
            else Bump(slots[i]).(current := slots[i].current + slots[i].effective - Sum(Gains(slots, el)))
  {
  }

  /**
    Conservation: for every eligibility pattern and all degraded weights, a pass
    keeps the sum of the current weights over the eligible set.
  */
  lemma PassConserves(slots: seq<Slot>, el: seq<bool>)
    requires |slots| == |el|
    ensures |Pass(slots, el).slots| == |slots|
    ensures Sum(Currents(Pass(slots, el).slots, el)) == Sum(Currents(slots, el))
  {
    var up, gains := Bumped(slots, el), Gains(slots, el);
    var r := Pass(slots, el);
    LeaderIsFirstMaximum(up, el, |up|);
    SumAdd(Currents(slots, el), gains, Currents(up, el));
    if r.winner == -1 {
      SumZero(gains);
    } else {
      var b := r.winner;
      var charged := up[b].current - Sum(gains);
      assert Currents(r.slots, el) == Currents(up, el)[b := charged];
      SumUpdate(Currents(up, el), b, charged);
    }
  }

  /** ... and therefore over every set that contains the eligible one, the whole group included. */
  lemma PassConservesSuperset(slots: seq<Slot>, el: seq<bool>, wide: seq<bool>)
    requires |slots| == |el| == |wide|
    requires forall i :: 0 <= i < |el| && el[i] ==> wide[i]
    ensures |Pass(slots, el).slots| == |slots|
    ensures Sum(Currents(Pass(slots, el).slots, wide)) == Sum(Currents(slots, wide))
  {
    var next := Pass(slots, el).slots;
    PassConserves(slots, el);
    PassFrame(slots, el);
    var rest := seq(|el|, i requires 0 <= i < |el| => wide[i] && !el[i]);
    SumAdd(Currents(slots, el), Currents(slots, rest), Currents(slots, wide));
    SumAdd(Currents(next, el), Currents(next, rest), Currents(next, wide));
    assert Currents(next, rest) == Currents(slots, rest);
  }

  /** The penalty of a failure report; both operands of the division are positive. */
  function Degrade(s: Slot, maxFails: int): Slot {
    var lowered := if maxFails > 0 then s.effective - s.weight / maxFails else s.effective;
    s.(effective := if lowered < 0 then 0 else lowered)
  }

  lemma DegradeInRange(s: Slot, maxFails: int)
    requires 1 <= s.weight && 0 <= s.effective <= s.weight
    ensures var d := Degrade(s, maxFails);
            d.weight == s.weight && d.current == s.current && 0 <= d.effective <= s.effective
  {
    if maxFails > 0 {
      assert s.weight / maxFails >= 0;
    }
  }
}
