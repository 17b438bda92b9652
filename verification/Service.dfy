/** Requests served by round-robin, each by a fresh picker, one after the other or overlapping: the schedule as clients see it. */
module Service {
  import opened Smooth
  import opened Fairness
  import BoundedWait
  import opened PeerStates
  import opened Peers
  import opened Health
  import opened RoundRobin

  // ---------- One request after the other ----------

  /** One request: a fresh picker selects at `now` and releases with `outcome` at `later`. */
  datatype Request = Request(now: int, outcome: Outcome, later: int)

  ghost function EligibleNow(states: seq<PeerState>, now: int): (el: seq<bool>)
    ensures |el| == |states|
  {
    seq(|states|, i requires 0 <= i < |states| => Eligible(states[i], false, now))
  }

  /** The state after the request, given what its selection did. */
  ghost function Finish(before: seq<PeerState>, c: Chosen, q: Request): (r: seq<PeerState>)
    requires |c.states| == |before| && c.winner < |before|
    ensures |r| == |before|
  {
    if c.winner < 0 then c.states
    else
      var w := c.winner;
      var probe := if StartsProbe(before[w], q.now) then Some(ProbeOf(before[w])) else None;
      c.states[w := Settle(c.states[w], q.outcome, probe, q.later)]
  }

  ghost function Serve(states: seq<PeerState>, qs: seq<Request>): (r: seq<PeerState>)
    ensures |r| == |states|
    decreases |qs|
  {
    if qs == [] then states
    else Serve(Finish(states, Elect(states, EligibleNow(states, qs[0].now), qs[0].now), qs[0]), qs[1..])
  }

  // ---------- Overlapping requests ----------

  /** A fresh picker's selection, or somebody's release of peer `peer`, in any order. */
  datatype Moment =
    | Arrives(now: int)
    | Leaves(peer: nat, outcome: Outcome, probe: Option<Probe>, now: int)

  ghost function AfterMoment(states: seq<PeerState>, m: Moment): (r: seq<PeerState>)
    ensures |r| == |states|
  {
    match m
    case Arrives(now) => Elect(states, EligibleNow(states, now), now).states
    case Leaves(i, outcome, probe, now) =>
      if i < |states| then states[i := Settle(states[i], outcome, probe, now)] else states
  }

  ghost function AfterAll(states: seq<PeerState>, ms: seq<Moment>): (r: seq<PeerState>)
    ensures |r| == |states|
  {
    if ms == [] then states else AfterMoment(AfterAll(states, ms[..|ms| - 1]), ms[|ms| - 1])
  }

  ghost function Arrivals(ms: seq<Moment>): nat {
    if ms == [] then 0 else Arrivals(ms[..|ms| - 1]) + if ms[|ms| - 1].Arrives? then 1 else 0
  }

  ghost predicate Takes(states: seq<PeerState>, m: Moment, i: nat) {
    m.Arrives? && Elect(states, EligibleNow(states, m.now), m.now).winner == i
  }

  /** How many of the arrivals went to peer `i`. */
  ghost function Served(states: seq<PeerState>, ms: seq<Moment>, i: nat): nat {
    if ms == [] then 0
    else
      var front := ms[..|ms| - 1];
      Served(states, front, i) + if Takes(AfterAll(states, front), ms[|ms| - 1], i) then 1 else 0
  }

  /** Every arrival finds just the peers of `el` eligible, and no release reports a failure. */
  ghost predicate Steady(states: seq<PeerState>, el: seq<bool>, ms: seq<Moment>) {
    ms == [] ||
    var front, m := ms[..|ms| - 1], ms[|ms| - 1];
    && Steady(states, el, front)
    && if m.Arrives? then EligibleNow(AfterAll(states, front), m.now) == el else !m.outcome.Failed?
  }

  /** Every arrival finds every peer eligible, and no release reports a failure. */
  ghost predicate Untroubled(states: seq<PeerState>, ms: seq<Moment>) {
    Steady(states, AllEligible(|states|), ms)
  }

  /** An arrival moves the scheduler by exactly one pass. */
  lemma ArrivalIsOnePass(states: seq<PeerState>, el: seq<bool>, now: int)
    requires |el| == |states|
    ensures var c, e := Elect(states, el, now), Pass(SlotsOf(states), el);
            SlotsOf(c.states) == e.slots && c.winner == e.winner
  {
    PassFrame(SlotsOf(states), el);
    hide Pass;
    if Pass(SlotsOf(states), el).winner == -1 {
      NoWinnerNoChange(states, el);
      assert SlotsOf(WithSlots(states, Pass(SlotsOf(states), el).slots)) == Pass(SlotsOf(states), el).slots;
    }
  }

  /** A release that reports no failure does not move the scheduler. */
  lemma ReleaseIsNoPass(states: seq<PeerState>, m: Moment)
    requires m.Leaves? && !m.outcome.Failed?
    ensures SlotsOf(AfterMoment(states, m)) == SlotsOf(states)
  {
  }

  lemma {:induction false} ServiceIsSchedule(states: seq<PeerState>, el: seq<bool>, ms: seq<Moment>, i: nat)
    requires |el| == |states| && Steady(states, el, ms)
    ensures SlotsOf(AfterAll(states, ms)) == Run(SlotsOf(states), el, Arrivals(ms))
    ensures Served(states, ms, i) == Wins(SlotsOf(states), el, i, Arrivals(ms))
  {
    hide Pass;
    hide Elect;
    if ms != [] {
      var front, m := ms[..|ms| - 1], ms[|ms| - 1];
      ServiceIsSchedule(states, el, front, i);
      if m.Arrives? {
        ArrivalIsOnePass(AfterAll(states, front), el, m.now);
      } else {
        ReleaseIsNoPass(AfterAll(states, front), m);
      }
    }
  }

  lemma {:induction false} WinsGrow(slots: seq<Slot>, el: seq<bool>, i: nat, a: nat, b: nat)
    requires |slots| == |el| && a <= b
    ensures Wins(slots, el, i, a) <= Wins(slots, el, i, b)
    decreases b
  {
    hide Pass;
    if a < b {
      WinsGrow(slots, el, i, a, b - 1);
    }
  }

  /**
    Bounded wait, as requests see it: from any state with weights in range, degraded to
    zero or not, with any number of requests in flight, an eligible peer is given one of
    any `WaitBound` arrivals in a row, if the arrivals find the same peers eligible and
    nothing fails.
  */
  lemma NobodyWaitsLong(states: seq<PeerState>, el: seq<bool>, ms: seq<Moment>, i: nat)
    requires |el| == |states| && Sound(SlotsOf(states)) && i < |el| && el[i]
    requires Steady(states, el, ms) && Arrivals(ms) >= BoundedWait.WaitBound(SlotsOf(states), el, i)
    ensures Served(states, ms, i) >= 1
  {
    hide Pass;
    hide Elect;
    hide Run;
    hide Wins;
    hide Served;
    hide Steady;
    var slots := SlotsOf(states);
    var t := BoundedWait.EveryPeerIsElected(slots, el, i);
    ServiceIsSchedule(states, el, ms, i);
    ElectedWins(slots, el, i, t);
    WinsGrow(slots, el, i, t + 1, Arrivals(ms));
  }

  lemma ElectedWins(slots: seq<Slot>, el: seq<bool>, i: nat, t: nat)
    requires |slots| == |el| && Elected(slots, el, t) == i
    ensures Wins(slots, el, i, t + 1) >= 1
  {
    hide Pass;
  }

  /**
    From freshly initialised peers, with any number of requests in flight at any time,
    as long as every arrival finds every peer eligible and nothing fails: no peer is
    ever a whole turn ahead of its share, and after every full cycle each has been
    given exactly its weight and the scheduler is back where it began.
  */
  lemma RoundRobinIsFair(states: seq<PeerState>, ms: seq<Moment>, i: nat, k: nat)
    requires i < |states| && Untroubled(states, ms)
    requires forall j :: 0 <= j < |states| ==> states[j] == Initial(states[j].cfg) && states[j].cfg.weight >= 1
    ensures var total := Total(SlotsOf(states), AllEligible(|states|));
            && total >= 1
            && Served(states, ms, i) * total < Arrivals(ms) * states[i].cfg.weight + total
            && (Arrivals(ms) == k * total ==>
                  && Served(states, ms, i) == k * states[i].cfg.weight
                  && AfterAll(states, ms)[i].currentWeight == 0)
  {
    hide Pass;
    var slots, all := SlotsOf(states), AllEligible(|states|);
    assert all[i];
    ServiceIsSchedule(states, all, ms, i);
    PrefixQuota(slots, all, i, Arrivals(ms));
    ExactShare(slots, all, k);
    assert SlotsOf(AfterAll(states, ms))[i].current == AfterAll(states, ms)[i].currentWeight;
  }
}
