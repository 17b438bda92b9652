/** leastconn.go: fewest weighted connections, ties broken by a smooth pass over the tied peers. */
module LeastConn {
  import opened Smooth
  import opened PeerStates
  import opened Peers
  import opened Health
  import opened RoundRobin
  import opened Service

  // ---------- The selection rule, on values ----------

  /** `a` carries no more connections per unit of weight than `b`, cross-multiplied. */
  predicate NoMoreLoaded(a: PeerState, b: PeerState) {
    a.conns * b.cfg.weight <= b.conns * a.cfg.weight
  }

  predicate Tied(a: PeerState, b: PeerState) {
    a.conns * b.cfg.weight == b.conns * a.cfg.weight
  }

  ghost predicate Weighted(states: seq<PeerState>) {
    forall i :: 0 <= i < |states| ==> states[i].cfg.weight >= 1
  }

  lemma LoadTransitive(a: PeerState, b: PeerState, c: PeerState)
    requires a.cfg.weight >= 1 && b.cfg.weight >= 1 && c.cfg.weight >= 1
    requires NoMoreLoaded(a, b) && NoMoreLoaded(b, c)
    ensures NoMoreLoaded(a, c)
    ensures Tied(a, c) ==> Tied(a, b) && Tied(b, c)
  {
    var x, y, z, u, v, w := a.conns, b.conns, c.conns, a.cfg.weight, b.cfg.weight, c.cfg.weight;
    ScaleLess(x * v, y * u, w);
    ScaleLess(y * w, z * v, u);
    assert x * v * w == (x * w) * v && y * u * w == y * w * u && z * v * u == (z * u) * v;
    if x * w > z * u {
      ScaleStrict(z * u, x * w, v);
      assert false;
    }
    if x * w == z * u {
      if x * v < y * u {
        ScaleStrict(x * v, y * u, w);
        assert false;
      }
      if y * w < z * v {
        ScaleStrict(y * w, z * v, u);
        assert false;
      }
    }
  }

  lemma ScaleLess(p: int, q: int, k: int)
    requires p <= q && k >= 1
    ensures p * k <= q * k
  {
  }

  lemma ScaleStrict(p: int, q: int, k: int)
    requires p < q && k >= 1
    ensures p * k < q * k
  {
  }

  /** The first least-loaded flagged peer among the first `n`; -1 if there is none. */
  function Least(states: seq<PeerState>, el: seq<bool>, n: nat): (b: int)
    requires |states| == |el| && n <= |states|
    ensures -1 <= b < n && (b >= 0 ==> el[b])
  {
    if n == 0 then -1
    else
      var b := Least(states, el, n - 1);
      if el[n - 1] && (b == -1 || !NoMoreLoaded(states[b], states[n - 1])) then n - 1 else b
  }

  lemma {:induction false} LeastIsFirstMinimum(states: seq<PeerState>, el: seq<bool>, n: nat)
    requires |states| == |el| && n <= |states| && Weighted(states)
    ensures var b := Least(states, el, n);
            && (b == -1 <==> forall j :: 0 <= j < n ==> !el[j])
            && (b >= 0 ==>
                  && (forall j :: 0 <= j < n && el[j] ==> NoMoreLoaded(states[b], states[j]))
                  && (forall j :: 0 <= j < b && el[j] ==> !Tied(states[b], states[j])))
  {
    if n > 0 {
      LeastIsFirstMinimum(states, el, n - 1);
      var prev, b := Least(states, el, n - 1), Least(states, el, n);
      if b == n - 1 && prev >= 0 {
        forall j | 0 <= j < n - 1 && el[j]
          ensures NoMoreLoaded(states[b], states[j]) && !Tied(states[b], states[j])
        {
          LoadTransitive(states[b], states[prev], states[j]);
        }
      }
    }
  }

  lemma {:induction false} LeastExists(states: seq<PeerState>, el: seq<bool>, n: nat)
    requires |states| == |el| && n <= |el|
    ensures Least(states, el, n) == -1 <==> forall i :: 0 <= i < n ==> !el[i]
  {
    if n > 0 {
      LeastExists(states, el, n - 1);
    }
  }

  ghost function TiedWith(states: seq<PeerState>, el: seq<bool>, b: nat): (tied: seq<bool>)
    requires |states| == |el| && b < |states|
    ensures |tied| == |el| && (forall i :: 0 <= i < |tied| && tied[i] ==> el[i]) && (el[b] ==> tied[b])
  {
    seq(|el|, i requires 0 <= i < |el| => el[i] && Tied(states[i], states[b]))
  }

  /** At least two flagged peers attain the minimum. */
  ghost predicate Many(states: seq<PeerState>, el: seq<bool>, n: nat)
    requires |states| == |el| && n <= |states|
  {
    exists i, j :: 0 <= i < j < n && el[i] && el[j] && Tied(states[i], states[j])
                   && forall k :: 0 <= k < n && el[k] ==> NoMoreLoaded(states[i], states[k])
  }

  /** A least-conn critical section: the sole minimum, or a smooth pass among the tied. */
  ghost function LeastElect(states: seq<PeerState>, el: seq<bool>, now: int): (c: Chosen)
    requires |states| == |el|
    ensures |c.states| == |states| && -1 <= c.winner < |states|
  {
    var b := Least(states, el, |states|);
    if b < 0 then Chosen(states, -1)
    else if Many(states, el, |states|) then Elect(states, TiedWith(states, el, b), now)
    else Chosen(states[b := Commit(states[b], now)], b)
  }

  /** What an election does to each peer: its winner gains a connection, nothing else is counted. */
  lemma ElectEffect(states: seq<PeerState>, el: seq<bool>, now: int)
    requires |states| == |el|
    ensures var c := Elect(states, el, now);
            && (c.winner == -1 <==> forall i :: 0 <= i < |el| ==> !el[i])
            && (c.winner >= 0 ==> el[c.winner])
            && forall i :: 0 <= i < |states| ==>
                 && c.states[i].cfg == states[i].cfg
                 && c.states[i].conns == states[i].conns + (if i == c.winner then 1 else 0)
  {
    hide Pass;
    PassFrame(SlotsOf(states), el);
  }

  /**
    Least-conn is a true minimum: the selected peer minimises connections per weight
    over every eligible peer, the tie-break included, and there is one whenever some
    peer is eligible.
  */
  lemma LeastElectIsMinimum(states: seq<PeerState>, el: seq<bool>, now: int)
    requires |states| == |el| && Weighted(states)
    ensures var c := LeastElect(states, el, now);
            && (c.winner == -1 <==> forall i :: 0 <= i < |el| ==> !el[i])
            && (c.winner >= 0 ==> el[c.winner])
            && (c.winner >= 0 ==> forall j :: 0 <= j < |el| && el[j] ==> NoMoreLoaded(states[c.winner], states[j]))
            && forall i :: 0 <= i < |states| ==>
                 && c.states[i].cfg == states[i].cfg
                 && c.states[i].conns == states[i].conns + (if i == c.winner then 1 else 0)
  {
    hide Elect;
    var b := Least(states, el, |states|);
    LeastIsFirstMinimum(states, el, |states|);
    if b >= 0 && Many(states, el, |states|) {
      var tied := TiedWith(states, el, b);
      assert tied[b];
      ElectEffect(states, tied, now);
      var w := LeastElect(states, el, now).winner;
      forall j | 0 <= j < |el| && el[j] ensures NoMoreLoaded(states[w], states[j]) {
        LoadTransitive(states[w], states[b], states[j]);
      }
    }
  }

  // ---------- Balance over a run of picks ----------

  /** No flagged peer is more than one connection ahead of its share against any other. */
  ghost predicate Balanced(states: seq<PeerState>, el: seq<bool>)
    requires |states| == |el|
  {
    forall i, j :: 0 <= i < |el| && 0 <= j < |el| && el[i] && el[j] ==>
      (states[i].conns - 1) * states[j].cfg.weight <= states[j].conns * states[i].cfg.weight
  }

  /** Picks by fresh pickers at the given instants, with one fixed eligible set and no releases. */
  ghost function PickRun(states: seq<PeerState>, el: seq<bool>, nows: seq<int>): (r: seq<PeerState>)
    requires |states| == |el|
    ensures |r| == |states|
    decreases |nows|
  {
    if nows == [] then states else PickRun(LeastElect(states, el, nows[0]).states, el, nows[1..])
  }

  lemma {:induction false} PicksStayBalanced(states: seq<PeerState>, el: seq<bool>, nows: seq<int>)
    requires |states| == |el| && Weighted(states) && Balanced(states, el)
    ensures Balanced(PickRun(states, el, nows), el)
    decreases |nows|
  {
    hide LeastElect;
    if nows != [] {
      var c := LeastElect(states, el, nows[0]);
      LeastElectIsMinimum(states, el, nows[0]);
      forall i, j | 0 <= i < |el| && 0 <= j < |el| && el[i] && el[j]
        ensures (c.states[i].conns - 1) * c.states[j].cfg.weight <= c.states[j].conns * c.states[i].cfg.weight
      {
        if j == c.winner {
          ScaleLess(states[j].conns, states[j].conns + 1, states[i].cfg.weight);
        }
        if i == c.winner && i != j {
          assert NoMoreLoaded(states[i], states[j]);
        } else if i == j {
          ScaleLess(c.states[i].conns - 1, c.states[i].conns, states[i].cfg.weight);
        }
      }
      PicksStayBalanced(c.states, el, nows[1..]);
    }
  }

  // ---------- Refinement of round-robin at idle ----------

  ghost predicate Idle(states: seq<PeerState>) {
    forall i :: 0 <= i < |states| ==> states[i].conns == 0
  }

  ghost predicate AtLeastTwo(el: seq<bool>) {
    exists i, j :: 0 <= i < j < |el| && el[i] && el[j]
  }

  /** With nothing in flight and two or more peers eligible, least-conn and round-robin are the same election. */
  lemma IdleElectionsAgree(states: seq<PeerState>, el: seq<bool>, now: int)
    requires |states| == |el| && Idle(states) && AtLeastTwo(el)
    ensures LeastElect(states, el, now) == Elect(states, el, now)
  {
    hide Elect;
    assert forall i, j :: 0 <= i < |el| && 0 <= j < |el| ==> Tied(states[i], states[j]) && NoMoreLoaded(states[i], states[j]);
    assert Many(states, el, |states|);
    var b := Least(states, el, |states|);
    LeastExists(states, el, |states|);
    assert TiedWith(states, el, b) == el;
  }

  /** The requests served one after the other by least-conn. */
  ghost function ServeLeast(states: seq<PeerState>, qs: seq<Request>): (r: seq<PeerState>)
    ensures |r| == |states|
    decreases |qs|
  {
    if qs == [] then states
    else
      var c := LeastElect(states, EligibleNow(states, qs[0].now), qs[0].now);
      ServeLeast(Finish(states, c, qs[0]), qs[1..])
  }

  /** Every request of the round-robin run finds two or more peers eligible. */
  ghost predicate Ample(states: seq<PeerState>, qs: seq<Request>)
    decreases |qs|
  {
    qs == [] ||
    var el := EligibleNow(states, qs[0].now);
    AtLeastTwo(el) && Ample(Finish(states, Elect(states, el, qs[0].now), qs[0]), qs[1..])
  }

  /** Whole runs of pick-then-release requests leave the same peers behind under least-conn as under round-robin. */
  lemma {:induction false} IdleRunsAgree(states: seq<PeerState>, qs: seq<Request>)
    requires Idle(states) && Ample(states, qs)
    ensures ServeLeast(states, qs) == Serve(states, qs)
    decreases |qs|
  {
    hide Elect;
    hide LeastElect;
    if qs != [] {
      var el := EligibleNow(states, qs[0].now);
      var c := Elect(states, el, qs[0].now);
      IdleElectionsAgree(states, el, qs[0].now);
      ElectEffect(states, el, qs[0].now);
      IdleRunsAgree(Finish(states, c, qs[0]), qs[1..]);
    }
  }

  // ---------- The picker ----------

  /** The scan keeps the first minimum, and remembers whether anything ties with it. */
  lemma ScanStep(states: seq<PeerState>, el: seq<bool>, n: nat)
    requires |states| == |el| && n < |states| && Weighted(states)
    ensures var b := Least(states, el, n);
            Least(states, el, n + 1) == if el[n] && (b == -1 || !NoMoreLoaded(states[b], states[n])) then n else b
    ensures var b := Least(states, el, n);
            Many(states, el, n + 1) <==>
            if !el[n] then Many(states, el, n)
            else if b == -1 || !NoMoreLoaded(states[b], states[n]) then false
            else Tied(states[n], states[b]) || Many(states, el, n)
  {
    hide Many;
    ManyIsTieWithLeast(states, el, n);
    ManyIsTieWithLeast(states, el, n + 1);
    LeastIsFirstMinimum(states, el, n + 1);
    TieIsMutual(states);
    hide NoMoreLoaded;
    hide Tied;
  }

  lemma TieIsMutual(states: seq<PeerState>)
    ensures forall i, j :: 0 <= i < |states| && 0 <= j < |states| && Tied(states[i], states[j]) ==> Tied(states[j], states[i])
  {
  }

  lemma ManyIsTieWithLeast(states: seq<PeerState>, el: seq<bool>, n: nat)
    requires |states| == |el| && n <= |states| && Weighted(states)
    ensures var b := Least(states, el, n);
            Many(states, el, n) <==> b >= 0 && exists j :: 0 <= j < n && j != b && el[j] && Tied(states[j], states[b])
  {
    var b := Least(states, el, n);
    LeastIsFirstMinimum(states, el, n);
    if Many(states, el, n) {
      var i, j :| 0 <= i < j < n && el[i] && el[j] && Tied(states[i], states[j])
                  && forall k :: 0 <= k < n && el[k] ==> NoMoreLoaded(states[i], states[k]);
      assert NoMoreLoaded(states[i], states[b]) && NoMoreLoaded(states[b], states[i]);
      LoadTransitive(states[b], states[i], states[j]);
      LoadTransitive(states[j], states[i], states[b]);
    }
    if b >= 0 && exists j :: 0 <= j < n && j != b && el[j] && Tied(states[j], states[b]) {
      var j :| 0 <= j < n && j != b && el[j] && Tied(states[j], states[b]);
      assert b < j;
    }
  }

  lemma ScanStart(group: PeerGroup, el: seq<bool>)
    requires WellFormed(group) && |el| == |group.peers|
    ensures Weighted(States(group.peers))
    ensures Least(States(group.peers), el, 0) == -1 && !Many(States(group.peers), el, 0)
  {
  }

  class LeastConnPicker {
    const rr: RRPicker

    constructor (rr: RRPicker)
      ensures this.rr == rr
    {
      this.rr := rr;
    }

    /** One comparison of the scan. */
    method Consider(best: Peer?, many: bool, peer: Peer) returns (best': Peer, many': bool)
      ensures var better := best == null || !NoMoreLoaded(best.State(), peer.State());
              && best' == (if better then peer else best)
              && many' == (!better && (many || Tied(peer.State(), best.State())))
    {
      if best == null || peer.conns * best.cfg.weight < best.conns * peer.cfg.weight {
        return peer, false;
      } else if peer.conns * best.cfg.weight == best.conns * peer.cfg.weight {
        return best, true;
      }
      return best, many;
    }

    /** The first pass: the first minimum, and whether it is shared. */
    method Scan(group: PeerGroup, now: int) returns (best: Peer?, many: bool)
      requires WellFormed(group) && !group.single
      ensures var s := Section(group, Runs(group.peers), States(group.peers), rr.tried, now);
              && best == PeerAt(group.peers, Least(s.seen, Candidates(s), |s.seen|))
              && (many <==> Many(s.seen, Candidates(s), |s.seen|))
    {
      hide Candidate;
      hide WellFormed;
      hide Weighted;
      hide Least;
      hide Many;
      hide NoMoreLoaded;
      hide Tied;
      hide RRPicker.EligibleAt;
      ghost var s := Section(group, Runs(group.peers), States(group.peers), rr.tried, now);
      var eligible := rr.EligibleAt(group.peers, now);
      rr.EligibleAreCandidates(group, now);
      ghost var el := Candidates(s);
      assert el == Flags(group.peers, eligible);
      ghost var b := -1;
      ScanStart(group, el);
      best, many := null, false;
      for n := 0 to |group.peers|
        invariant b == Least(s.seen, el, n) && best == PeerAt(group.peers, b) && (many <==> Many(s.seen, el, n))
      {
        ScanStep(s.seen, el, n);
        var peer := group.peers[n];
        assert (el[n] <==> peer in eligible) && peer.State() == s.seen[n] && (best != null ==> best.State() == s.seen[b]);
        if peer in eligible {
          b := if best == null || !NoMoreLoaded(best.State(), peer.State()) then n else b;
          best, many := Consider(best, many, peer);
        }
      }
    }

    /** The second pass's closure, evaluated: the eligible peers that tie with the least loaded one. */
    function TiedPeers(peers: seq<Peer>, eligible: set<Peer>, least: Peer): set<Peer>
      reads peers, least
    {
      set p | p in peers && p in eligible && p.conns * least.cfg.weight == least.conns * p.cfg.weight
    }

    lemma TiedAreTied(peers: seq<Peer>, eligible: set<Peer>, el: seq<bool>, b: int)
      requires 0 <= b < |peers| && el == Flags(peers, eligible)
      ensures Flags(peers, TiedPeers(peers, eligible, peers[b])) == TiedWith(States(peers), el, b)
      ensures TiedPeers(peers, eligible, peers[b]) <= eligible
    {
    }

    /** The rest of the section once the scan has found a minimum. */
    method CommitLeast(group: PeerGroup, best: Peer, many: bool, ghost s: Section, ghost b: int, now: int) returns (r: Peer)
      requires rr.Valid() && rr.Consistent() && rr.Ours(group) && !group.single
      requires s == Section(group, Runs(group.peers), States(group.peers), rr.tried, now)
      requires b == Least(s.seen, Candidates(s), |s.seen|) >= 0 && best == group.peers[b]
      requires many <==> Many(s.seen, Candidates(s), |s.seen|)
      modifies rr`tried, rr`probeChecked, group.peers
      ensures LeastOutcome(s, States(group.peers), r)
      ensures rr.TookFrom(group, r, old(rr.tried), now, now)
      ensures rr.Consistent() && rr.Acted(old(rr.Past()), rr.Past(), r, rr.Claimed(r))
    {
      hide Elect;
      hide Many;
      hide Tied;
      hide Candidate;
      hide WellFormed;
      hide RRPicker.Valid;
      hide RRPicker.Consistent;
      hide RRPicker.Acted;
      hide RRPicker.EligibleAt;
      hide RRPicker.StakeIn;
      hide Peer.Lawful;
      hide TiedPeers;
      ghost var seen, el := s.seen, Candidates(s);
      var eligible := rr.EligibleAt(group.peers, now);
      rr.EligibleAreCandidates(group, now);
      rr.OursInPool(group);
      if many {
        var tied := TiedPeers(group.peers, eligible, best);
        TiedAreTied(group.peers, eligible, el, b);
        r := rr.ElectAndCommit(group.peers, tied, now, map p | p in eligible :: now);
      } else {
        assert best in eligible && rr.Admits(best, now, map p | p in eligible :: now);
        rr.ClaimAt(group.peers, best, b, now, now);
        r := best;
      }
    }

    /** The least-conn critical section, at instant `now`. */
    method PickLeast(group: PeerGroup, now: int) returns (r: Peer?, ghost s: Section)
      requires rr.Valid() && rr.Consistent() && rr.Ours(group) && !group.single
      modifies rr`tried, rr`probeChecked, group.peers
      ensures s == Section(group, old(Runs(group.peers)), old(States(group.peers)), old(rr.tried), now)
      ensures r == null <==> Barren(s)
      ensures LeastOutcome(s, States(group.peers), r) && (r != null ==> TookLightest(s, r))
      ensures r == null ==> rr.tried == old(rr.tried)
      ensures r != null ==> rr.TookFrom(group, r, old(rr.tried), now, now)
      ensures rr.Consistent() && rr.Acted(old(rr.Past()), rr.Past(), r, rr.Claimed(r))
    {
      hide Many;
      hide TookLightest;
      hide Weighted;
      hide WellFormed;
      hide RRPicker.Valid;
      hide RRPicker.Consistent;
      hide RRPicker.Acted;
      hide RRPicker.Past;
      hide RRPicker.StakeIn;
      hide Peer.Lawful;
      ghost var seen := States(group.peers);
      s := Section(group, Runs(group.peers), seen, rr.tried, now);
      rr.OursInPool(group);
      ScanStart(group, Candidates(s));
      LeastExists(seen, Candidates(s), |seen|);
      var best, many := Scan(group, now);
      rr.Untouched();
      rr.SameRecord();
      if best == null {
        rr.NothingMoved();
        return null, s;
      }
      r := CommitLeast(group, best, many, s, Least(seen, Candidates(s), |seen|), now);
      LeastOutcomeIsLightest(s, States(group.peers), r);
    }

    /** A section on the current group: least-conn, but for a single-peer group, which takes the round-robin fast path. */
    method PickFromGroup(group: PeerGroup, clock: Clock) returns (r: Peer?, ghost s: Section)
      requires rr.Valid() && rr.Consistent() && rr.Ours(group)
      modifies rr`tried, rr`probeChecked, group.peers, clock
      ensures s == Section(group, old(Runs(group.peers)), old(States(group.peers)), old(rr.tried), clock.now)
      ensures old(clock.now) <= clock.now
      ensures r == null <==> Barren(s)
      ensures r == null <==> NobodyFree(group, old(States(group.peers)), old(rr.tried), clock.now)
      ensures LeastSection(s, States(group.peers), r)
      ensures r == null ==> rr.tried == old(rr.tried)
      ensures r != null ==> rr.TookFrom(group, r, old(rr.tried), if group.single then 0 else s.now, if group.single then 0 else s.now)
      ensures rr.Consistent() && rr.Acted(old(rr.Past()), rr.Past(), r, rr.Claimed(r))
    {
      hide LeastOutcome;
      hide SectionOutcome;
      hide Barren;
      hide NobodyFree;
      hide RRPicker.Acted;
      hide RRPicker.Consistent;
      hide RRPicker.Valid;
      hide RRPicker.StakeIn;
      hide RRPicker.Past;
      if group.single {
        r, s := rr.PickFast(group, clock.now);
      } else {
        var now := clock.Read();
        rr.Untouched();
        rr.SameRecord();
        r, s := PickLeast(group, now);
      }
      BarrenInFields(s);
    }

    /** A section on the current group, on record, and what it makes of the picker. */
    method PickCurrent(group: PeerGroup, clock: Clock) returns (r: Peer?, ghost s: Section)
      requires rr.Valid() && rr.Consistent() && rr.Current(group)
      modifies rr`tried, rr`probeChecked, group.peers, clock
      ensures rr.Valid() && rr.Consistent() && clock.now >= old(clock.now)
      ensures s.group == group && s.tried == old(rr.tried)
      ensures r == null <==> Barren(s)
      ensures LeastSection(s, States(group.peers), r)
      ensures r == null ==> rr.tried == old(rr.tried)
      ensures r != null ==> r in group.peers && rr.OneClock([s], r)
      ensures PickEffect(rr.primary, rr.backup, old(rr.tried), old(rr.backupPhase), rr.tried, rr.backupPhase, r)
      ensures rr.Acted(old(rr.Past()), rr.Past(), r, rr.Claimed(r))
      ensures Seen(s, Span(old(clock.now), clock.now, old(rr.Past()), rr.Past()))
    {
      hide LeastSection;
      hide Barren;
      hide RRPicker.Acted;
      hide RRPicker.Consistent;
      hide RRPicker.Valid;
      hide Seen;
      hide RRPicker.StakeIn;
      hide RRPicker.Past;
      hide PickEffect;
      hide Peer.Account;
      ghost var was, runs, seen := rr.Past(), Runs(group.peers), States(group.peers);
      rr.PastIsTrue(group);
      r, s := PickFromGroup(group, clock);
      rr.ActedIsMoved(was, rr.Past(), r, rr.Claimed(r));
      rr.SeesTruly(group, was, rr.Past(), runs, seen, r, rr.Claimed(r), s, old(clock.now), clock.now);
      rr.StaysValid(r);
      rr.TookEffect(group, r, old(rr.tried), old(rr.backupPhase), if group.single then 0 else s.now, if group.single then 0 else s.now);
    }

    /** The second half of a Pick: the backups, by least-conn. */
    method PickBackup(clock: Clock) returns (r: Peer?, ghost log: seq<Section>)
      requires rr.Valid() && rr.Consistent()
      modifies rr, rr.Backups(), clock
      ensures rr.Valid() && rr.Consistent() && clock.now >= old(clock.now)
      ensures rr.Acted(old(rr.Past()), rr.Past(), r, rr.Claimed(r))
      ensures PickEffect(rr.primary, rr.backup, old(rr.tried), old(rr.backupPhase), rr.tried, rr.backupPhase, r)
      ensures r != null ==> rr.backupPhase
      ensures var groups, w := Consulted(rr.primary, rr.backup, true), Span(old(clock.now), clock.now, old(rr.Past()), rr.Past());
              if r == null then Exhausted(log, groups, old(rr.tried), w)
              else Found(log, groups, old(rr.tried), w, r) && DeliveredLeast(log, r)
      ensures r != null ==> rr.OneClock(log, r)
    {
      hide LeastSection;
      hide Barren;
      hide RRPicker.Acted;
      hide RRPicker.Consistent;
      hide RRPicker.Valid;
      hide Seen;
      hide RRPicker.StakeIn;
      hide RRPicker.Past;
      hide PickEffect;
      hide Exhausted;
      hide Found;
      hide Consulted;
      var group := rr.BackupGroupForPick();
      rr.Untouched();
      if group.None? {
        rr.NothingMoved();
        rr.NoBackups(rr.tried, Span(old(clock.now), clock.now, rr.Past(), rr.Past()));
        rr.NothingTaken(old(rr.backupPhase));
        return null, [];
      }
      ghost var s;
      r, s := PickCurrent(group.value, clock);
      rr.EffectSince(old(rr.tried), old(rr.backupPhase), true, r);
      rr.OneBackup(s, Span(old(clock.now), clock.now, old(rr.Past()), rr.Past()), r);
      log := [s];
    }

    /** The primaries were barren: let others run, then turn to the backups. */
    method FallBack(ghost s: Section, ghost since: int, ghost was: Journal, clock: Clock) returns (r: Peer?, ghost rest: seq<Section>)
      requires rr.Valid() && rr.Consistent() && since <= clock.now && rr.Moved(was, rr.Past(), null, NO_STAKE)
      requires s.group == rr.primary && s.tried == rr.tried && Barren(s) && Seen(s, Span(since, clock.now, was, rr.Past()))
      modifies rr, rr.Pool(), clock
      ensures rr.Valid() && rr.Consistent() && clock.now >= old(clock.now)
      ensures rr.Moved(was, rr.Past(), r, rr.Claimed(r))
      ensures PickEffect(rr.primary, rr.backup, old(rr.tried), old(rr.backupPhase), rr.tried, rr.backupPhase, r)
      ensures var groups, w := Consulted(rr.primary, rr.backup, false), Span(since, clock.now, was, rr.Past());
              if r == null then Exhausted([s] + rest, groups, old(rr.tried), w)
              else Found([s] + rest, groups, old(rr.tried), w, r) && DeliveredLeast([s] + rest, r)
      ensures r != null ==> rr.OneClock([s] + rest, r)
    {
      hide LeastSection;
      hide Barren;
      hide RRPicker.Moved;
      hide RRPicker.Acted;
      hide RRPicker.Consistent;
      hide RRPicker.Valid;
      hide Seen;
      hide RRPicker.StakeIn;
      hide RRPicker.Past;
      hide PickEffect;
      hide Exhausted;
      hide Found;
      hide Consulted;
      rr.Yield();
      rr.SameRecord();
      ghost var t, mid := clock.now, rr.Past();
      r, rest := PickBackup(clock);
      rr.ActedIsMoved(mid, rr.Past(), r, rr.Claimed(r));
      rr.BarrenThenBackups(s, rest, since, t, clock.now, was, old(rr.Past()), mid, rr.Past(), r, rr.Claimed(r));
    }

    /** Least-conn over the primaries, then over the backups. */
    method Pick(clock: Clock) returns (r: Peer?, ghost log: seq<Section>)
      requires rr.Valid() && rr.Consistent()
      modifies rr, rr.Pool(), clock
      ensures rr.Valid() && rr.Consistent() && clock.now >= old(clock.now)
      ensures rr.Moved(old(rr.Past()), rr.Past(), r, rr.Claimed(r))
      ensures PickEffect(rr.primary, rr.backup, old(rr.tried), old(rr.backupPhase), rr.tried, rr.backupPhase, r)
      ensures var groups, w := Consulted(rr.primary, rr.backup, old(rr.backupPhase)),
                               Span(old(clock.now), clock.now, old(rr.Past()), rr.Past());
              if r == null then Exhausted(log, groups, old(rr.tried), w)
              else Found(log, groups, old(rr.tried), w, r) && DeliveredLeast(log, r)
      ensures r != null ==> rr.OneClock(log, r)
    {
      hide LeastSection;
      hide Barren;
      hide RRPicker.Moved;
      hide RRPicker.Acted;
      hide RRPicker.Consistent;
      hide RRPicker.Valid;
      hide Seen;
      hide RRPicker.StakeIn;
      hide RRPicker.Past;
      hide PickEffect;
      hide Exhausted;
      hide Found;
      hide Consulted;
      if rr.backupPhase {
        r, log := PickBackup(clock);
        rr.ActedIsMoved(old(rr.Past()), rr.Past(), r, rr.Claimed(r));
        return;
      }
      ghost var s, rest;
      r, s := PickCurrent(rr.primary, clock);
      rr.ActedIsMoved(old(rr.Past()), rr.Past(), r, rr.Claimed(r));
      log := [s];
      if r != null {
        FoundFirst(s, rr.primary, rr.backup, Span(old(clock.now), clock.now, old(rr.Past()), rr.Past()), r);
        return;
      }
      rr.MovedNowhere(old(rr.Past()), rr.Past(), rr.Claimed(r), NO_STAKE);
      r, rest := FallBack(s, old(clock.now), old(rr.Past()), clock);
      log := log + rest;
    }
  }

  /** The section elected `r` among its candidates by least-conn and left the peers as `after`. */
  ghost predicate LeastOutcome(s: Section, after: seq<PeerState>, r: Peer?) {
    && |s.seen| == |s.group.peers|
    && var c := LeastElect(s.seen, Candidates(s), s.now);
       after == c.states && r == PeerAt(s.group.peers, c.winner)
  }

  /** The same for any group: the fast path is round-robin's. */
  ghost predicate LeastSection(s: Section, after: seq<PeerState>, r: Peer?) {
    && (if s.group.single then SectionOutcome(s, after, r) else LeastOutcome(s, after, r))
    && (r != null ==> TookLightest(s, r))
  }

  /** The last section elected `r`, by least-conn, and its peers are still as it left them. */
  ghost predicate DeliveredLeast(log: seq<Section>, r: Peer)
    reads LastPeers(log)
  {
    log != [] && LeastSection(log[|log| - 1], States(LastPeers(log)), r)
  }

  /**
    The least-conn law in the peers' own fields: outside the single-peer group, no untried
    peer that is up, below its cap, and below its failure limit or rested, had fewer
    connections per unit of weight than the one taken.
  */
  ghost predicate TookLightest(s: Section, r: Peer) {
    && |s.seen| == |s.group.peers|
    && (s.group.single ||
        exists w :: 0 <= w < |s.seen| && s.group.peers[w] == r && forall i :: 0 <= i < |s.seen| ==>
          var p := s.seen[i];
          || s.group.peers[i] in s.tried || p.cfg.down
          || (p.cfg.maxConns > 0 && p.conns >= p.cfg.maxConns)
          || (p.cfg.maxFails > 0 && p.fails >= p.cfg.maxFails && s.now - p.checked <= p.cfg.failTimeout)
          || s.seen[w].conns * p.cfg.weight <= p.conns * s.seen[w].cfg.weight)
  }

  lemma LeastOutcomeIsLightest(s: Section, after: seq<PeerState>, r: Peer)
    requires LeastOutcome(s, after, r) && Weighted(s.seen)
    ensures TookLightest(s, r)
  {
    hide LeastElect;
    var el := Candidates(s);
    LeastElectIsMinimum(s.seen, el, s.now);
    var w := LeastElect(s.seen, el, s.now).winner;
    assert s.group.peers[w] == r;
    forall i | 0 <= i < |s.seen|
      ensures var p := s.seen[i];
              || s.group.peers[i] in s.tried || p.cfg.down
              || (p.cfg.maxConns > 0 && p.conns >= p.cfg.maxConns)
              || (p.cfg.maxFails > 0 && p.fails >= p.cfg.maxFails && s.now - p.checked <= p.cfg.failTimeout)
              || s.seen[w].conns * p.cfg.weight <= p.conns * s.seen[w].cfg.weight
    {
      assert el[i] == Candidate(s, i);
      if el[i] {
        assert NoMoreLoaded(s.seen[w], s.seen[i]);
      }
    }
  }
}
