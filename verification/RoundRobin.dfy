/** roundrobin.go: the smooth pass on shared peers, and the per-request picker every algorithm embeds. */
module RoundRobin {
  import opened Sums
  import opened Smooth
  import opened PeerStates
  import opened Peers
  import opened Health

  ghost function Flags(peers: seq<Peer>, chosen: set<Peer>): (el: seq<bool>)
    ensures |el| == |peers|
  {
    seq(|peers|, i requires 0 <= i < |peers| => peers[i] in chosen)
  }

  ghost function PeerAt(peers: seq<Peer>, i: int): Peer?
    requires i < |peers|
  {
    if i < 0 then null else peers[i]
  }

  /** One eligible peer's share of a pass: it gains its effective weight, which recovers by one. */
  method Raise(peer: Peer) returns (gain: int)
    modifies peer`currentWeight, peer`effectiveWeight
    ensures peer.State().ToSlot() == Bump(old(peer.State().ToSlot())) && gain == old(peer.effectiveWeight)
  {
    gain := peer.effectiveWeight;
    peer.currentWeight := peer.currentWeight + gain;
    if peer.effectiveWeight < peer.cfg.weight {
      peer.effectiveWeight := peer.effectiveWeight + 1;
    }
  }

  ghost predicate Holds(p: Peer, s: Slot)
    reads p
  {
    p.currentWeight == s.current && p.effectiveWeight == s.effective && p.cfg.weight == s.weight
  }

  lemma PassNext(start: seq<Slot>, el: seq<bool>, n: nat)
    requires n < |start| == |el|
    ensures var up, b := Bumped(start, el), Leader(Bumped(start, el), el, n);
            Leader(up, el, n + 1) == if el[n] && (b == -1 || up[n].current > up[b].current) then n else b
    ensures var gains := Gains(start, el); Sum(gains[..n + 1]) == Sum(gains[..n]) + gains[n]
  {
    var gains := Gains(start, el);
    assert gains[..n + 1][..n] == gains[..n];
  }

  lemma PassBegins(start: seq<Slot>, el: seq<bool>)
    requires |start| == |el|
    ensures Leader(Bumped(start, el), el, 0) == -1 && Sum(Gains(start, el)[..0]) == 0
  {
  }

  /**
    The mutating loop.  The source evaluates an eligibility closure per peer; it reads
    nothing the loop writes, so the set of peers satisfying it is passed instead.
  */
  method RaiseEligible(peers: seq<Peer>, eligible: set<Peer>) returns (best: Peer?, total: int)
    requires Distinct(peers)
    modifies peers`currentWeight, peers`effectiveWeight
    ensures var start, el := old(SlotsOf(States(peers))), Flags(peers, eligible);
            && SlotsOf(States(peers)) == Bumped(start, el)
            && total == Sum(Gains(start, el))
            && best == PeerAt(peers, Leader(Bumped(start, el), el, |peers|))
  {
    hide Leader;
    hide Sum;
    ghost var start, el := SlotsOf(States(peers)), Flags(peers, eligible);
    PassBegins(start, el);
    ghost var up, gains := Bumped(start, el), Gains(start, el);
    ghost var lead := -1;
    best := null;
    total := 0;
    for n := 0 to |peers|
      invariant lead == Leader(up, el, n) && best == PeerAt(peers, lead)
      invariant total == Sum(gains[..n])
      invariant forall i :: 0 <= i < n ==> Holds(peers[i], up[i])
      invariant forall i :: n <= i < |peers| ==> Holds(peers[i], start[i])
    {
      PassNext(start, el, n);
      assert Holds(peers[n], start[n]);
      if peers[n] in eligible {
        var gain := Raise(peers[n]);
        total := total + gain;
        if best == null || peers[n].currentWeight > best.currentWeight {
          best := peers[n];
          lead := n;
        }
      }
    }
    assert gains[..|peers|] == gains;
    assert SlotsOf(States(peers)) == up;
  }

  method SmoothWeightedPeer(peers: seq<Peer>, eligible: set<Peer>) returns (best: Peer?)
    requires Distinct(peers)
    modifies peers`currentWeight, peers`effectiveWeight
    ensures var e := Pass(old(SlotsOf(States(peers))), Flags(peers, eligible));
            SlotsOf(States(peers)) == e.slots && best == PeerAt(peers, e.winner)
  {
    ghost var start, el := SlotsOf(States(peers)), Flags(peers, eligible);
    ghost var up := Bumped(start, el);
    ghost var lead := Leader(up, el, |up|);
    var total;
    best, total := RaiseEligible(peers, eligible);
    if best != null {
      best.currentWeight := best.currentWeight - total;
    }
    assert SlotsOf(States(peers)) == Charge(up, lead, total);
  }

  // ---------- A critical section, on values ----------

  function WithSlot(p: PeerState, s: Slot): PeerState {
    p.(currentWeight := s.current, effectiveWeight := s.effective)
  }

  ghost function WithSlots(states: seq<PeerState>, slots: seq<Slot>): seq<PeerState>
    requires |states| == |slots|
  {
    seq(|states|, i requires 0 <= i < |states| => WithSlot(states[i], slots[i]))
  }

  datatype Chosen = Chosen(states: seq<PeerState>, winner: int)

  /** A smooth pass over the flagged peers, then the commit of its winner. */
  ghost function Elect(states: seq<PeerState>, el: seq<bool>, now: int): (c: Chosen)
    requires |states| == |el|
    ensures |c.states| == |states| && -1 <= c.winner < |states|
  {
    var e := Pass(SlotsOf(states), el);
    var passed := WithSlots(states, e.slots);
    if e.winner < 0 then Chosen(states, -1)
    else Chosen(passed[e.winner := Commit(passed[e.winner], now)], e.winner)
  }

  /** The peers' pasts at some point. */
  type Journal = map<Peer, Trail>

  /**
    One critical section a picker went through: the group, the past of its peers and
    their states as found, and the picker's own record.
  */
  datatype Section = Section(group: PeerGroup, runs: seq<seq<Event>>, seen: seq<PeerState>, tried: set<Peer>, now: int)

  ghost predicate Candidate(s: Section, i: nat)
    requires i < |s.seen| == |s.group.peers|
  {
    var p, tried := s.seen[i], s.group.peers[i] in s.tried;
    if s.group.single then !tried && !p.cfg.down && !Full(p) else Eligible(p, tried, s.now)
  }

  ghost function Candidates(s: Section): (el: seq<bool>)
    requires |s.seen| == |s.group.peers|
    ensures |el| == |s.seen| && forall i :: 0 <= i < |el| ==> (el[i] <==> Candidate(s, i))
  {
    seq(|s.seen|, i requires 0 <= i < |s.seen| => Candidate(s, i))
  }

  /** The section found nobody to select. */
  ghost predicate Barren(s: Section) {
    |s.seen| == |s.group.peers| && forall i :: 0 <= i < |s.seen| ==> !Candidate(s, i)
  }

  /**
    In the peers' own fields: everybody is tried, down, at the cap, or, in a group of several,
    at the failure limit and not rested for longer than the fail timeout.
  */
  ghost predicate NobodyFree(group: PeerGroup, seen: seq<PeerState>, tried: set<Peer>, now: int) {
    && |seen| == |group.peers|
    && forall i :: 0 <= i < |seen| ==>
         var p := seen[i];
         || group.peers[i] in tried || p.cfg.down
         || (p.cfg.maxConns > 0 && p.conns >= p.cfg.maxConns)
         || (!group.single && p.cfg.maxFails > 0 && p.fails >= p.cfg.maxFails && now - p.checked <= p.cfg.failTimeout)
  }

  lemma BarrenInFields(s: Section)
    ensures Barren(s) <==> NobodyFree(s.group, s.seen, s.tried, s.now)
  {
    if |s.seen| == |s.group.peers| {
      forall i | 0 <= i < |s.seen|
        ensures !Candidate(s, i) <==>
                var p := s.seen[i];
                || s.group.peers[i] in s.tried || p.cfg.down
                || (p.cfg.maxConns > 0 && p.conns >= p.cfg.maxConns)
                || (!s.group.single && p.cfg.maxFails > 0 && p.fails >= p.cfg.maxFails && s.now - p.checked <= p.cfg.failTimeout)
      {
      }
    }
  }

  /** What a release does, in the peer's own fields; `probe` is what the picker remembered of it. */
  ghost predicate ReleasedInFields(before: PeerState, after: PeerState, single: bool, failed: bool, neutral: bool,
                                   probe: Option<Probe>, since: int, until: int) {
    && after.cfg == before.cfg && after.currentWeight == before.currentWeight && after.conns == before.conns - 1
    && (single || neutral || !failed ==> after.accessed == before.accessed && after.effectiveWeight == before.effectiveWeight)
    && (single || (!neutral && !failed) ==> after.checked == before.checked && after.checkedSeq == before.checkedSeq)
    && if single then after.fails == 0
       else if neutral then
         && after.fails == before.fails
         && if probe.Some? && before.checkedSeq == probe.value.version
            then after.checked == probe.value.prior && after.checkedSeq == before.checkedSeq + 1
            else after.checked == before.checked && after.checkedSeq == before.checkedSeq
       else if failed then
         && after.fails == before.fails + 1 && after.checkedSeq == before.checkedSeq + 1
         && since <= after.accessed == after.checked <= until
         && var cost := if before.cfg.maxFails > 0 then before.cfg.weight / before.cfg.maxFails else 0;
            after.effectiveWeight == if before.effectiveWeight >= cost then before.effectiveWeight - cost else 0
       else after.fails == if before.accessed < before.checked then 0 else before.fails
  }

  /** The section elected `r` among its candidates and left the peers as `after`. */
  ghost predicate SmoothOutcome(s: Section, after: seq<PeerState>, r: Peer?) {
    && |s.seen| == |s.group.peers|
    && var c := Elect(s.seen, Candidates(s), s.now);
       after == c.states && r == PeerAt(s.group.peers, c.winner)
  }

  /** The same for any group: the single-peer fast path only counts a connection. */
  ghost predicate SectionOutcome(s: Section, after: seq<PeerState>, r: Peer?) {
    if !s.group.single then SmoothOutcome(s, after, r)
    else
      && |s.seen| == |s.group.peers| == 1
      && if Candidate(s, 0) then r == s.group.peers[0] && after == [s.seen[0].(conns := s.seen[0].conns + 1)]
         else r == null && after == s.seen
  }

  // ---------- Sections and the time they fell in ----------

  /** A stretch of time: its ends on the clock, and the peers' pasts at its ends. */
  datatype Span = Span(since: int, until: int, was: Journal, now: Journal)

  /** The peers of the section were seen as they really were at a moment of the stretch. */
  ghost predicate Seen(s: Section, w: Span) {
    && |s.runs| == |s.seen| == |s.group.peers| && w.since <= s.now <= w.until
    && forall i :: 0 <= i < |s.seen| ==>
         var p := s.group.peers[i];
         && p in w.was && p in w.now && w.was[p].run <= s.runs[i] && s.runs[i] <= w.now[p].run
         && s.seen[i] == p.Account(s.group.single, s.runs[i]).peer
  }

  ghost predicate Within(w: Span, v: Span) {
    && v.since <= w.since && w.until <= v.until
    && (forall p :: p in w.was ==> p in v.was && v.was[p].run <= w.was[p].run)
    && (forall p :: p in w.now ==> p in v.now && w.now[p].run <= v.now[p].run)
  }

  lemma SeenWithin(s: Section, w: Span, v: Span)
    requires Seen(s, w) && Within(w, v)
    ensures Seen(s, v)
  {
  }

  /** What any picker's Pick does to its own record: no repeats, no down peers, and no way back from the backups. */
  ghost predicate PickEffect(primary: PeerGroup, backup: Option<PeerGroup>,
                             tried: set<Peer>, phase: bool, tried': set<Peer>, phase': bool, r: Peer?) {
    && (phase ==> phase')
    && (r == null ==> tried' == tried)
    && (r != null ==>
          && r !in tried && tried' == tried + {r} && !r.cfg.down
          && (if phase' then backup.Some? && r in backup.value.peers else r in primary.peers))
  }

  /** The groups a failed Pick must have gone through by round-robin: the primary unless it was already given up, then the backups. */
  ghost function Consulted(primary: PeerGroup, backup: Option<PeerGroup>, phase: bool): seq<PeerGroup> {
    (if phase then [] else [primary]) + (if backup.Some? && backup.value.peers != [] then [backup.value] else [])
  }

  /** A nil result: each consulted group was barren when its lock was held, given the peers tried before the Pick. */
  ghost predicate Exhausted(log: seq<Section>, groups: seq<PeerGroup>, tried: set<Peer>, w: Span) {
    && |log| == |groups|
    && forall i :: 0 <= i < |log| ==>
         log[i].group == groups[i] && log[i].tried == tried && Seen(log[i], w) && Barren(log[i])
  }

  ghost function LastPeers(log: seq<Section>): seq<Peer> {
    if log == [] then [] else log[|log| - 1].group.peers
  }

  /** A peer found: the groups consulted before its own were barren, and its own was consulted last. */
  ghost predicate Found(log: seq<Section>, groups: seq<PeerGroup>, tried: set<Peer>, w: Span, r: Peer) {
    && 1 <= |log| <= |groups| && r in log[|log| - 1].group.peers
    && forall i :: 0 <= i < |log| ==>
         && log[i].group == groups[i] && log[i].tried == tried && Seen(log[i], w)
         && (i < |log| - 1 ==> Barren(log[i]))
  }

  /** What holds of a stretch of time holds of a longer one. */
  lemma Widened(log: seq<Section>, groups: seq<PeerGroup>, tried: set<Peer>, w: Span, v: Span, r: Peer?)
    requires Within(w, v)
    ensures Exhausted(log, groups, tried, w) ==> Exhausted(log, groups, tried, v)
    ensures r != null && Found(log, groups, tried, w, r) ==> Found(log, groups, tried, v, r) && log != []
  {
    hide Barren;
    forall i | 0 <= i < |log| && Seen(log[i], w) ensures Seen(log[i], v) {
      SeenWithin(log[i], w, v);
    }
    hide Seen;
    hide Within;
  }

  /** The last section elected `r`, by round-robin, and its peers are still as it left them. */
  ghost predicate Delivered(log: seq<Section>, r: Peer)
    reads LastPeers(log)
  {
    log != [] && SectionOutcome(log[|log| - 1], States(LastPeers(log)), r)
  }

  /** The primary's section found a peer at once. */
  lemma FoundFirst(s: Section, primary: PeerGroup, backup: Option<PeerGroup>, w: Span, r: Peer)
    requires s.group == primary && Seen(s, w) && r in primary.peers
    ensures Found([s], Consulted(primary, backup, false), s.tried, w, r)
  {
    hide Seen;
  }

  /** The primary's section was barren, and the backups came next. */
  lemma BarrenThen(s: Section, rest: seq<Section>, primary: PeerGroup, backup: Option<PeerGroup>, w: Span, r: Peer?)
    requires s.group == primary && Seen(s, w) && Barren(s)
    ensures var first, second := Consulted(primary, backup, false), Consulted(primary, backup, true);
            && (Exhausted(rest, second, s.tried, w) ==> Exhausted([s] + rest, first, s.tried, w))
            && (r != null && Found(rest, second, s.tried, w, r) ==> Found([s] + rest, first, s.tried, w, r))
  {
    hide Barren;
    hide Seen;
  }

  /** Weighing is over: every peer's weights are where a pass may have put them. */
  ghost method NotePass(peers: seq<Peer>, was: seq<PeerState>)
    requires |was| == |peers|
    requires forall i :: 0 <= i < |peers| ==> Reweighed(peers[i], was[i])
    modifies peers`events
    ensures forall p :: p in peers ==>
              && p.events == old(p.events) + [Weighed(p.currentWeight, p.effectiveWeight)] && p.Lawful(false)
              && p.Account(false, p.events) == old(p.Account(false, p.events)).(peer := p.State())
  {
    forall p | p in peers
      ensures var e := Weighed(p.currentWeight, p.effectiveWeight);
              && Feasible(Begin(p.cfg, false), p.events + [e])
              && p.Account(false, p.events + [e]) == p.Account(false, p.events).(peer := p.State())
    {
      var e := Weighed(p.currentWeight, p.effectiveWeight);
      var i :| 0 <= i < |peers| && p == peers[i];
      assert Reweighed(peers[i], was[i]);
      PassIsEvent(p, was[i]);
    }
    forall p | p in peers {
      p.events := p.events + [Weighed(p.currentWeight, p.effectiveWeight)];
    }
  }

  /** The peer's past leads to `was`, and since then only its weights have moved, as a pass moves them. */
  ghost predicate Reweighed(p: Peer, was: PeerState)
    reads p
  {
    && Feasible(Begin(p.cfg, false), p.events) && p.Account(false, p.events).peer == was
    && p.State() == was.(currentWeight := p.currentWeight, effectiveWeight := p.effectiveWeight)
    && was.effectiveWeight <= p.effectiveWeight <= p.cfg.weight
  }

  lemma PassIsEvent(p: Peer, was: PeerState)
    requires Reweighed(p, was)
    ensures var e := Weighed(p.currentWeight, p.effectiveWeight);
            && Feasible(Begin(p.cfg, false), p.events + [e])
            && p.Account(false, p.events + [e]) == p.Account(false, p.events).(peer := p.State())
  {
    OneMore(Begin(p.cfg, false), p.events, Weighed(p.currentWeight, p.effectiveWeight));
    ConfigFixed(Begin(p.cfg, false), p.events);
  }

  class RRPicker {
    const primary: PeerGroup
    const backup: Option<PeerGroup>
    var tried: set<Peer>
    var backupPhase: bool
    var probeChecked: map<Peer, Probe>
    ghost const id: nat   // tells the picker's events in a peer's past from others'

    ghost function Backups(): seq<Peer> {
      if backup.Some? then backup.value.peers else []
    }

    /** Every peer the picker can reach. */
    ghost function Pool(): set<Peer> {
      (set p | p in primary.peers) + (set p | p in Backups())
    }

    ghost predicate Valid()
      reads this`tried, this`backupPhase
    {
      && WellFormed(primary) && (backup.Some? ==> WellFormed(backup.value) && !backup.value.single)
      && (forall p :: p in primary.peers ==> !p.cfg.backup)
      && (forall p :: p in Backups() ==> p.cfg.backup)
      && (backup.Some? ==> !primary.single)
      && tried <= Pool()
      // no backup peer is marked before the backups are entered, so the deletion there undoes nothing
      && (!backupPhase ==> forall p :: p in Backups() ==> p !in tried)
      && (backupPhase ==> Backups() != [])
    }

    // ---------- The picker and its peers' pasts ----------

    ghost function Past(): Journal
      reads Pool()
    {
      map p | p in Pool() :: p.Past()
    }

    /** The picker's stake in a peer with the given past. */
    ghost function StakeIn(p: Peer, run: seq<Event>): Stake {
      StakeOf(p.Account(primary.single, run), id)
    }

    ghost function ProbeIn(probes: map<Peer, Probe>, peer: Peer): Option<Probe> {
      if peer in probes then Some(probes[peer]) else None
    }

    /** The peer's past is lawful, and says of this picker what the picker's own record says. */
    ghost predicate Agrees(p: Peer)
      reads this`tried, this`probeChecked, p
    {
      && p.Lawful(primary.single)
      && var st := StakeIn(p, p.events);
         st.probe == ProbeIn(probeChecked, p) && if p in tried then st.tried else st == NO_STAKE
    }

    ghost predicate Consistent()
      reads this`tried, this`probeChecked, Pool()
    {
      forall p :: p in Pool() ==> Agrees(p)
    }

    ghost predicate Own(e: Event) {
      e.Weighed? || e.id == id
    }

    /**
      A peer's past has only grown, and every new event is a weighing, this picker's own,
      or what other requests did while it waited; nothing older is put down to others.
    */
    ghost predicate Grew(a: Trail, b: Trail) {
      && a.run <= b.run && a.others <= b.others
      && (forall k :: k in b.others ==> k in a.others || k >= |a.run|)
      && (forall k :: |a.run| <= k < |b.run| ==> k in b.others || Own(b.run[k]))
    }

    /** All that is new in the past is weighings and this picker's own acts. */
    ghost predicate Worked(a: Trail, b: Trail) {
      a.run <= b.run && b.others == a.others && forall k :: |a.run| <= k < |b.run| ==> Own(b.run[k])
    }

    lemma WorkedGrew(a: Trail, b: Trail)
      requires Worked(a, b)
      ensures Grew(a, b)
    {
    }

    lemma WorkedAfter(a: Trail, b: Trail, c: Trail)
      requires Worked(a, b) && Worked(b, c)
      ensures Worked(a, c)
    {
      forall k | |a.run| <= k < |c.run| ensures Own(c.run[k]) {
        if k < |b.run| {
          assert c.run[k] == b.run[k];
        }
      }
    }

    /** One own event more, or none. */
    lemma WorkedOnce(a: Trail, b: Trail, e: Event)
      requires b.others == a.others && (b.run == a.run || (b.run == a.run + [e] && Own(e)))
      ensures Worked(a, b)
    {
    }

    lemma GrewAfter(a: Trail, b: Trail, c: Trail)
      requires Grew(a, b) && Grew(b, c)
      ensures Grew(a, c)
    {
      forall k | |a.run| <= k < |c.run| ensures k in c.others || Own(c.run[k]) {
        if k < |b.run| {
          assert c.run[k] == b.run[k];
        }
      }
    }

    /**
      The picker's stake in `r` has become `st`, its other stakes are what they were, and
      it has done nothing in anyone else's name.
    */
    ghost predicate Moved(was: Journal, now: Journal, r: Peer?, st: Stake) {
      && was.Keys == now.Keys
      && forall p :: p in was ==>
           && Grew(was[p], now[p])
           && StakeIn(p, now[p].run) == if p == r then st else StakeIn(p, was[p].run)
    }

    /**
      What a critical section does: it moves the picker as `Moved` says, and nobody but
      this picker has anything to do with it.
    */
    ghost predicate Acted(was: Journal, now: Journal, r: Peer?, st: Stake) {
      && was.Keys == now.Keys
      && forall p :: p in was ==>
           && Worked(was[p], now[p])
           && StakeIn(p, now[p].run) == if p == r then st else StakeIn(p, was[p].run)
    }

    lemma ActedIsMoved(was: Journal, now: Journal, r: Peer?, st: Stake)
      requires Acted(was, now, r, st)
      ensures Moved(was, now, r, st)
    {
      hide StakeIn;
      hide Worked;
      hide Grew;
      forall p | p in was ensures Grew(was[p], now[p]) {
        WorkedGrew(was[p], now[p]);
      }
    }

    /** Nobody but this picker had anything to do with what happened. */
    ghost predicate Alone(was: Journal, now: Journal) {
      was.Keys == now.Keys && forall p :: p in was ==> Worked(was[p], now[p])
    }

    lemma ActedIsAlone(was: Journal, now: Journal, r: Peer?, st: Stake)
      requires Acted(was, now, r, st)
      ensures Alone(was, now)
    {
    }

    /**
      What one picker does is what any other allows: the other still agrees with the pasts
      of its peers, and all that was added to them is lawful and not its own doing.
    */
    twostate lemma Spares(other: RRPicker)
      requires other.id != id && other.primary.single == primary.single && other.Pool() == Pool()
      requires Consistent() && Alone(old(Past()), Past())
      requires old(other.Consistent()) && other.tried == old(other.tried) && other.probeChecked == old(other.probeChecked)
      ensures other.Consistent()
      ensures forall p :: p in Pool() ==>
                && p.Lawful(primary.single) && old(p.events) <= p.events && Foreign(p.events[|old(p.events)|..], other.id)
                && other.StakeIn(p, p.events) == other.StakeIn(p, old(p.events))
    {
      hide After;
      hide Feasible;
      hide Worked;
      forall p | p in Pool()
        ensures old(p.events) <= p.events && Foreign(p.events[|old(p.events)|..], other.id)
        ensures other.StakeIn(p, p.events) == other.StakeIn(p, old(p.events))
      {
        assert p in old(Past()) && Past()[p] == p.Past();
        WorkedIsForeign(p, old(p.Past()), p.Past(), other);
      }
      hide StakeIn;
      hide Foreign;
    }

    lemma WorkedIsForeign(p: Peer, a: Trail, b: Trail, other: RRPicker)
      requires other.id != id && Worked(a, b)
      ensures a.run <= b.run && Foreign(b.run[|a.run|..], other.id) && other.StakeIn(p, b.run) == other.StakeIn(p, a.run)
    {
      assert b.run == a.run + b.run[|a.run|..];
      ForeignKeepsStake(Begin(p.cfg, other.primary.single), a.run, b.run[|a.run|..], other.id);
    }

    lemma ActedAfter(a: Journal, b: Journal, c: Journal, r: Peer?, st: Stake)
      requires Acted(a, b, null, NO_STAKE) && Acted(b, c, r, st)
      ensures Acted(a, c, r, st)
    {
      hide Worked;
      hide StakeIn;
      forall p | p in a ensures Worked(a[p], c[p]) {
        WorkedAfter(a[p], b[p], c[p]);
      }
    }

    lemma ActedNowhere(was: Journal, now: Journal, st: Stake, st': Stake)
      requires Acted(was, now, null, st)
      ensures Acted(was, now, null, st')
    {
    }

    lemma MovedAfter(a: Journal, b: Journal, c: Journal, r: Peer?, st: Stake)
      requires Moved(a, b, null, NO_STAKE) && Moved(b, c, r, st)
      ensures Moved(a, c, r, st)
    {
      hide Grew;
      hide StakeIn;
      forall p | p in a ensures Grew(a[p], c[p]) {
        GrewAfter(a[p], b[p], c[p]);
      }
    }

    lemma SpanWithin(a: Journal, b: Journal, c: Journal, r: Peer?, st: Stake, since: int, now: int, until: int)
      requires Moved(a, b, null, NO_STAKE) && Moved(b, c, r, st) && since <= now <= until
      ensures Within(Span(now, until, b, c), Span(since, until, a, c))
      ensures Within(Span(since, now, a, b), Span(since, until, a, c))
    {
    }

    /** The stake of a picker in a peer it just took. */
    ghost function Claimed(r: Peer?): Stake
      reads this`probeChecked
    {
      Stake(true, true, if r == null then None else ProbeIn(probeChecked, r), None)
    }

    constructor (primary: PeerGroup, backup: Option<PeerGroup>, ghost id: nat)
      requires WellFormed(primary) && (backup.Some? ==> WellFormed(backup.value) && !backup.value.single)
      requires forall p :: p in primary.peers ==> !p.cfg.backup
      requires backup.Some? ==> !primary.single && forall p :: p in backup.value.peers ==> p.cfg.backup
      requires forall p :: p in primary.peers || (backup.Some? && p in backup.value.peers) ==>
                 p.Lawful(primary.single) && StakeOf(p.Account(primary.single, p.events), id) == NO_STAKE
      ensures Valid() && Consistent() && this.primary == primary && this.backup == backup && this.id == id
      ensures tried == {} && !backupPhase && probeChecked == map[]
    {
      this.primary, this.backup, this.id := primary, backup, id;
      tried, backupPhase, probeChecked := {}, false, map[];
    }

    /** Let other requests run. */
    method Yield()
      requires Consistent()
      modifies Pool()
      ensures Consistent() && Moved(old(Past()), Past(), null, NO_STAKE)
    {
      hide Peer.Lawful;
      hide Moved;
      hide Consistent;
      LawfulAll();
      OtherRequests(Pool(), primary.single, id);
      ForeignOnly();
      NoneMine();
    }

    twostate lemma ForeignOnly()
      requires forall p :: p in Pool() ==> old(p.events) <= p.events && Foreign(p.events[|old(p.events)|..], id)
      requires forall p :: p in Pool() ==> p.others == old(p.others) + Between(|old(p.events)|, |p.events|)
      ensures forall p :: p in Pool() ==> Grew(old(p.Past()), p.Past()) && StakeIn(p, p.events) == StakeIn(p, old(p.events))
    {
      forall p | p in Pool() ensures Grew(old(p.Past()), p.Past()) && StakeIn(p, p.events) == StakeIn(p, old(p.events)) {
        ForeignKeepsStake(Begin(p.cfg, primary.single), old(p.events), p.events[|old(p.events)|..], id);
        assert p.events == old(p.events) + p.events[|old(p.events)|..];
      }
    }

    /** The peers and the picker's notes on them are as they were. */
    twostate lemma Untouched()
      requires unchanged(Pool()) && tried == old(tried) && probeChecked == old(probeChecked)
      ensures Past() == old(Past()) && (old(Consistent()) ==> Consistent())
    {
    }

    /** Nothing happened to the peers that is the picker's doing. */
    twostate lemma NoneMine()
      requires old(Consistent()) && tried == old(tried) && probeChecked == old(probeChecked)
      requires forall p :: p in Pool() ==> p.Lawful(primary.single) && Grew(old(p.Past()), p.Past())
      requires forall p :: p in Pool() ==> StakeIn(p, p.events) == StakeIn(p, old(p.events))
      ensures Consistent() && Moved(old(Past()), Past(), null, NO_STAKE)
    {
      hide StakeIn;
      hide Grew;
      hide Peer.Lawful;
    }

    /** A pass is nobody's doing in particular. */
    twostate lemma OnlyWeighed()
      requires old(Consistent()) && tried == old(tried) && probeChecked == old(probeChecked)
      requires forall p :: p in Pool() ==> p.Lawful(primary.single) && Worked(old(p.Past()), p.Past())
      requires forall p :: p in Pool() ==> StakeIn(p, p.events) == StakeIn(p, old(p.events))
      ensures Consistent() && Acted(old(Past()), Past(), null, NO_STAKE)
    {
      hide StakeIn;
      hide Worked;
      hide Peer.Lawful;
    }

    lemma LawfulAll()
      requires Consistent()
      ensures forall p :: p in Pool() ==> p.Lawful(primary.single)
    {
    }

    /** Record a selected winner, starting a recovery probe if one is due. */
    method CommitPeer(peer: Peer, now: int)
      modifies this`tried, this`probeChecked, peer`conns, peer`checked, peer`checkedSeq
      ensures peer.State() == Commit(old(peer.State()), now)
      ensures tried == old(tried) + {peer}
      ensures probeChecked == if StartsProbe(old(peer.State()), now)
                              then old(probeChecked)[peer := ProbeOf(old(peer.State()))] else old(probeChecked)
      ensures peer.conns == old(peer.conns) + 1 && peer.fails == old(peer.fails) && peer.accessed == old(peer.accessed)
      ensures if now - old(peer.checked) > peer.cfg.failTimeout then
                && peer.checked == now && peer.checkedSeq == old(peer.checkedSeq) + 1
                && probeChecked == old(probeChecked)[peer := Probe(old(peer.checked), peer.checkedSeq)]
              else
                && peer.checked == old(peer.checked) && peer.checkedSeq == old(peer.checkedSeq) && probeChecked == old(probeChecked)
    {
      if now - peer.checked > peer.cfg.failTimeout {
        var prior := peer.checked;
        peer.SetChecked(now);
        probeChecked := probeChecked[peer := Probe(prior, peer.checkedSeq)];
      }
      peer.conns := peer.conns + 1;
      tried := tried + {peer};
    }

    /** Commit a peer that may be selected: available at `avail`, committed with the instant `now`. */
    method Claim(peer: Peer, now: int, ghost avail: int)
      requires peer in Pool() && !primary.single && Consistent() && peer !in tried && !peer.cfg.down
      requires now <= avail && Available(peer.State(), avail)
      modifies this`tried, this`probeChecked, peer
      ensures peer.State() == Commit(old(peer.State()), now) && tried == old(tried) + {peer}
      ensures peer.events == old(peer.events) + [Selected(id, now, avail)]
      ensures Consistent() && Acted(old(Past()), Past(), peer, Claimed(peer))
    {
      hide After;
      hide Feasible;
      hide Enabled;
      hide Next;
      hide Commit;
      hide Acted;
      hide Consistent;
      AgreesWith(peer);
      ClaimIsEvent(peer, now, avail);
      CommitPeer(peer, now);
      peer.Note(false, Selected(id, now, avail));
      WorkedOnce(old(peer.Past()), peer.Past(), Selected(id, now, avail));
      OnlyOne(peer);
    }

    /** Nothing but `peer` changed: the picker still agrees with all the others. */
    twostate lemma OnlyOne(peer: Peer)
      requires old(Consistent()) && Agrees(peer) && Worked(old(peer.Past()), peer.Past())
      requires forall p :: p in Pool() && p != peer ==> p.State() == old(p.State()) && p.Past() == old(p.Past())
      requires forall p :: p in Pool() && p != peer ==>
                 (p in tried <==> p in old(tried)) && ProbeIn(probeChecked, p) == ProbeIn(old(probeChecked), p)
      ensures Consistent() && Acted(old(Past()), Past(), peer, StakeIn(peer, peer.events))
    {
      hide StakeIn;
      hide After;
      hide Feasible;
      hide Worked;
      forall p | p in Pool() && p != peer ensures Worked(old(p.Past()), p.Past()) {
        WorkedOnce(p.Past(), p.Past(), Weighed(0, 0));
      }
    }

    lemma AgreesWith(p: Peer)
      requires Consistent() && p in Pool()
      ensures Agrees(p)
    {
    }

    lemma ClaimIsEvent(peer: Peer, now: int, avail: int)
      requires Agrees(peer) && !primary.single && peer !in tried && !peer.cfg.down
      requires now <= avail && Available(peer.State(), avail)
      ensures var s := peer.Account(false, peer.events);
              && Enabled(s, Selected(id, now, avail)) && Next(s, Selected(id, now, avail)).peer == Commit(peer.State(), now)
              && StakeOf(Next(s, Selected(id, now, avail)), id) ==
                 Stake(true, true, if StartsProbe(peer.State(), now) then Some(ProbeOf(peer.State())) else ProbeIn(probeChecked, peer), None)
    {
      ConfigFixed(Begin(peer.cfg, false), peer.events);
    }

    /** nginx's single-peer fast path: no clock, no timestamps, no weights. */
    method PickSingle(peer: Peer) returns (r: Peer?)
      requires primary.single && peer in Pool() && Consistent()
      modifies this`tried, peer`conns, peer`events
      ensures r == if peer in old(tried) || peer.cfg.down || Full(old(peer.State())) then null else peer
      ensures tried == if r == null then old(tried) else old(tried) + {peer}
      ensures peer.conns == old(peer.conns) + if r == null then 0 else 1
      ensures peer.events == old(peer.events) + if r == null then [] else [Selected(id, 0, 0)]
      ensures Consistent() && Acted(old(Past()), Past(), r, Claimed(r))
    {
      hide After;
      hide Feasible;
      hide Enabled;
      hide Next;
      hide Acted;
      hide Consistent;
      AgreesWith(peer);
      if peer in tried || peer.cfg.down || (peer.cfg.maxConns > 0 && peer.conns >= peer.cfg.maxConns) {
        NothingMoved();
        return null;
      }
      SingleIsEvent(peer);
      peer.conns := peer.conns + 1;
      tried := tried + {peer};
      peer.Note(true, Selected(id, 0, 0));
      WorkedOnce(old(peer.Past()), peer.Past(), Selected(id, 0, 0));
      OnlyOne(peer);
      return peer;
    }

    lemma SingleIsEvent(peer: Peer)
      requires Agrees(peer) && primary.single && peer !in tried && !peer.cfg.down && !Full(peer.State())
      ensures var s := peer.Account(true, peer.events);
              && Enabled(s, Selected(id, 0, 0))
              && Next(s, Selected(id, 0, 0)).peer == peer.State().(conns := peer.conns + 1)
              && StakeOf(Next(s, Selected(id, 0, 0)), id) == Stake(true, true, ProbeIn(probeChecked, peer), None)
    {
      ConfigFixed(Begin(peer.cfg, true), peer.events);
    }

    lemma NothingMoved()
      ensures Acted(Past(), Past(), null, Claimed(null))
    {
    }

    /** A smooth pass over the eligible peers, entered in their pasts. */
    method Weigh(peers: seq<Peer>, eligible: set<Peer>) returns (best: Peer?)
      requires Distinct(peers) && !primary.single && Consistent()
      requires forall p :: p in peers ==> p in Pool() && p.cfg.weight >= 1
      modifies peers`currentWeight, peers`effectiveWeight, peers`events
      ensures var e := Pass(old(SlotsOf(States(peers))), Flags(peers, eligible));
              && |e.slots| == |peers| && -1 <= e.winner < |peers|
              && States(peers) == WithSlots(old(States(peers)), e.slots) && best == PeerAt(peers, e.winner)
      ensures if best == null then States(peers) == old(States(peers)) && Runs(peers) == old(Runs(peers))
              else forall p :: p in peers ==>
                     && p.Lawful(false) && p.events == old(p.events) + [Weighed(p.currentWeight, p.effectiveWeight)]
                     && p.Account(false, p.events) == old(p.Account(false, p.events)).(peer := p.State())
    {
      hide Pass;
      hide Consistent;
      hide Peer.Lawful;
      hide Peer.Account;
      hide Reweighed;
      hide Feasible;
      hide Next;
      ghost var start, el := States(peers), Flags(peers, eligible);
      PassFrame(SlotsOf(start), el);
      SoundPeers(peers);
      best := SmoothWeightedPeer(peers, eligible);
      ghost var e := Pass(SlotsOf(start), el);
      assert States(peers) == WithSlots(start, e.slots);
      if best == null {
        NoWinnerNoChange(start, el);
      } else {
        PassReweighs(peers, start, e.slots);
        NotePass(peers, start);
      }
    }

    lemma SoundPeers(peers: seq<Peer>)
      requires Consistent() && forall p :: p in peers ==> p in Pool() && p.cfg.weight >= 1
      ensures Sound(SlotsOf(States(peers)))
      ensures forall i :: 0 <= i < |peers| ==>
                && Feasible(Begin(peers[i].cfg, primary.single), peers[i].events)
                && peers[i].Account(primary.single, peers[i].events).peer == peers[i].State()
    {
      forall i | 0 <= i < |peers| ensures 0 <= peers[i].effectiveWeight <= peers[i].cfg.weight {
        LawfulWeight(peers[i], primary.single);
      }
    }

    /** After a pass every peer is where one left it; `was` is how the peers were. */
    lemma PassReweighs(peers: seq<Peer>, was: seq<PeerState>, slots: seq<Slot>)
      requires |was| == |slots| == |peers| && States(peers) == WithSlots(was, slots)
      requires forall i :: 0 <= i < |peers| ==>
                 && Feasible(Begin(peers[i].cfg, false), peers[i].events)
                 && peers[i].Account(false, peers[i].events).peer == was[i]
                 && was[i].effectiveWeight <= slots[i].effective <= peers[i].cfg.weight
      ensures forall i :: 0 <= i < |peers| ==> Reweighed(peers[i], was[i])
    {
      hide After;
      hide Feasible;
      forall i | 0 <= i < |peers| ensures Reweighed(peers[i], was[i]) {
        assert States(peers)[i] == WithSlot(was[i], slots[i]);
      }
    }

    twostate lemma WeighedOnly(peers: seq<Peer>)
      requires !primary.single && old(Consistent())
      requires forall p :: p in Pool() ==> p.others == old(p.others)
      requires forall p :: p in Pool() && p !in peers ==> p.State() == old(p.State()) && p.events == old(p.events)
      requires || (States(peers) == old(States(peers)) && Runs(peers) == old(Runs(peers)))
               || (forall p :: p in peers ==>
                     && p.Lawful(false) && p.events == old(p.events) + [Weighed(p.currentWeight, p.effectiveWeight)]
                     && p.Account(false, p.events) == old(p.Account(false, p.events)).(peer := p.State()))
      ensures forall p :: p in Pool() ==> p.Lawful(primary.single) && Worked(old(p.Past()), p.Past())
      ensures forall p :: p in Pool() ==> StakeIn(p, p.events) == StakeIn(p, old(p.events))
    {
      hide After;
      hide Feasible;
      hide Worked;
      forall p | p in Pool()
        ensures p.Lawful(primary.single) && Worked(old(p.Past()), p.Past()) && StakeIn(p, p.events) == StakeIn(p, old(p.events))
      {
        assert old(Agrees(p));
        if p in peers {
          var i :| 0 <= i < |peers| && p == peers[i];
          assert States(peers)[i] == p.State() && Runs(peers)[i] == p.events;
          assert old(States(peers))[i] == old(p.State()) && old(Runs(peers))[i] == old(p.events);
        }
        WorkedOnce(old(p.Past()), p.Past(), Weighed(p.currentWeight, p.effectiveWeight));
      }
    }

    /** The pass as the picker sees it: none of its stakes is touched. */
    method PassOver(peers: seq<Peer>, eligible: set<Peer>) returns (best: Peer?)
      requires Distinct(peers) && !primary.single && Consistent()
      requires forall p :: p in peers ==> p in Pool() && p.cfg.weight >= 1
      modifies peers`currentWeight, peers`effectiveWeight, peers`events
      ensures var e := Pass(old(SlotsOf(States(peers))), Flags(peers, eligible));
              && |e.slots| == |peers| && -1 <= e.winner < |peers|
              && States(peers) == WithSlots(old(States(peers)), e.slots) && best == PeerAt(peers, e.winner)
      ensures best == null ==> States(peers) == old(States(peers)) && Runs(peers) == old(Runs(peers))
      ensures Consistent() && Acted(old(Past()), Past(), null, NO_STAKE)
    {
      hide Pass;
      hide Acted;
      hide Consistent;
      hide Peer.Lawful;
      hide Peer.Account;
      hide StakeIn;
      hide WithSlots;
      best := Weigh(peers, eligible);
      WeighedOnly(peers);
      OnlyWeighed();
    }

    /** The peer may be selected: it was available at the instant given, no earlier than `now`. */
    ghost predicate Admits(p: Peer, now: int, avail: map<Peer, int>)
      reads this`tried, p
    {
      p !in tried && !p.cfg.down && p in avail && now <= avail[p] && Available(p.State(), avail[p])
    }

    /** The same, and what it makes of a list of peers it is in. */
    method ClaimAt(ghost peers: seq<Peer>, peer: Peer, ghost at: int, now: int, ghost avail: int)
      requires Distinct(peers) && 0 <= at < |peers| && peer == peers[at]
      requires peer in Pool() && !primary.single && Consistent() && peer !in tried && !peer.cfg.down
      requires now <= avail && Available(peer.State(), avail)
      modifies this`tried, this`probeChecked, peer
      ensures States(peers) == old(States(peers))[at := Commit(old(peer.State()), now)]
      ensures tried == old(tried) + {peer} && LastAct(peer, now, avail)
      ensures Consistent() && Acted(old(Past()), Past(), peer, Claimed(peer))
    {
      hide Consistent;
      hide Acted;
      hide Past;
      hide Commit;
      Claim(peer, now, avail);
    }

    /** A smooth pass over the eligible peers and the commit of its winner. */
    method ElectAndCommit(peers: seq<Peer>, eligible: set<Peer>, now: int, ghost avail: map<Peer, int>) returns (r: Peer?)
      requires Distinct(peers) && !primary.single && Consistent()
      requires forall p :: p in peers ==> p in Pool() && p.cfg.weight >= 1
      requires forall p :: p in peers && p in eligible ==> Admits(p, now, avail)
      modifies this`tried, this`probeChecked, peers
      ensures var c := Elect(old(States(peers)), Flags(peers, eligible), now);
              States(peers) == c.states && r == PeerAt(peers, c.winner)
      ensures r == null <==> forall i :: 0 <= i < |peers| ==> !Flags(peers, eligible)[i]
      ensures r == null ==>
                && States(peers) == old(States(peers)) && Runs(peers) == old(Runs(peers))
                && tried == old(tried) && probeChecked == old(probeChecked)
      ensures r != null ==>
                && r in peers && r in eligible && r in avail && !r.cfg.down && r !in old(tried) && tried == old(tried) + {r}
                && LastAct(r, now, avail[r])
      ensures Consistent() && Acted(old(Past()), Past(), r, Claimed(r))
    {
      hide Pass;
      hide Acted;
      hide Consistent;
      hide Commit;
      hide Peer.Lawful;
      hide StakeIn;
      hide Past;
      ghost var start, el := States(peers), Flags(peers, eligible);
      ghost var e := Pass(SlotsOf(start), el);
      PassFrame(SlotsOf(start), el);
      ghost var was := Past();
      r := PassOver(peers, eligible);
      if r == null {
        assert forall i :: 0 <= i < |peers| ==> !el[i];
        ActedNowhere(was, Past(), NO_STAKE, Claimed(r));
      } else {
        assert el[e.winner] && r.State() == WithSlot(start[e.winner], e.slots[e.winner]);
        ghost var mid := Past();
        ClaimAt(peers, r, e.winner, now, avail[r]);
        ActedAfter(was, mid, Past(), r, Claimed(r));
      }
    }

    lemma MovedNowhere(was: Journal, now: Journal, st: Stake, st': Stake)
      requires Moved(was, now, null, st)
      ensures Moved(was, now, null, st')
    {
    }

    /** The last thing done to the peer is that this picker took it. */
    ghost predicate LastAct(r: Peer, now: int, avail: int)
      reads r
    {
      now <= avail && r.events != [] && r.events[|r.events| - 1] == Selected(id, now, avail)
    }

    /** The same with the instants left open: committed, then checked, within the given time. */
    ghost predicate JustTook(r: Peer, since: int, until: int)
      reads r
    {
      && r.events != []
      && var e := r.events[|r.events| - 1];
         e.Selected? && e.id == id && since <= e.now <= e.avail <= until
    }

    /** The picker took `r` out of `group`, and noted it. */
    ghost predicate TookFrom(group: PeerGroup, r: Peer, was: set<Peer>, now: int, avail: int)
      reads this, r
    {
      r in group.peers && r !in was && tried == was + {r} && !r.cfg.down && LastAct(r, now, avail)
    }

    /** The eligibility closure, evaluated. */
    function EligibleAt(peers: seq<Peer>, now: int): set<Peer>
      reads this`tried, peers
    {
      set p | p in peers && Eligible(p.State(), p in tried, now)
    }

    lemma EligibleAreCandidates(group: PeerGroup, now: int)
      requires !group.single
      ensures Flags(group.peers, EligibleAt(group.peers, now)) ==
              Candidates(Section(group, Runs(group.peers), States(group.peers), tried, now))
      ensures forall p :: p in EligibleAt(group.peers, now) ==> Admits(p, now, map q | q in EligibleAt(group.peers, now) :: now)
    {
    }

    /** One of the picker's groups. */
    ghost predicate Ours(group: PeerGroup) {
      group == primary || (backup.Some? && group == backup.value)
    }

    lemma OursInPool(group: PeerGroup)
      requires Valid() && Ours(group)
      ensures WellFormed(group) && group.single == primary.single && Distinct(group.peers)
      ensures forall p :: p in group.peers ==> p in Pool() && p.cfg.weight >= 1
    {
    }

    /** What a section saw is how things really were when it began. */
    lemma SeesTruly(group: PeerGroup, was: Journal, now: Journal, runs: seq<seq<Event>>, seen: seq<PeerState>,
                    r: Peer?, st: Stake, s: Section, since: int, until: int)
      requires forall p :: p in group.peers ==> p in was
      requires |runs| == |seen| == |group.peers|
      requires forall i :: 0 <= i < |seen| ==>
                 runs[i] == was[group.peers[i]].run && seen[i] == group.peers[i].Account(group.single, runs[i]).peer
      requires Moved(was, now, r, st) && s == Section(group, runs, seen, s.tried, s.now) && since <= s.now <= until
      ensures Seen(s, Span(since, until, was, now))
    {
      hide Peer.Account;
      hide StakeIn;
    }

    lemma PastIsTrue(group: PeerGroup)
      requires Valid() && Ours(group) && Consistent()
      ensures forall p :: p in group.peers ==> p in Past()
      ensures forall i :: 0 <= i < |group.peers| ==>
                && Runs(group.peers)[i] == Past()[group.peers[i]].run
                && States(group.peers)[i] == group.peers[i].Account(group.single, Runs(group.peers)[i]).peer
    {
      hide After;
      hide Feasible;
      hide StakeIn;
      OursInPool(group);
      LawfulAll();
      hide Consistent;
      hide Valid;
    }

    /** The round-robin critical section of a group with several peers, at instant `now`. */
    method PickSmooth(group: PeerGroup, now: int) returns (r: Peer?, ghost s: Section)
      requires Valid() && Consistent() && Ours(group) && !group.single
      modifies this`tried, this`probeChecked, group.peers
      ensures s == Section(group, old(Runs(group.peers)), old(States(group.peers)), old(tried), now)
      ensures r == null <==> Barren(s)
      ensures SmoothOutcome(s, States(group.peers), r)
      ensures r == null ==> tried == old(tried)
      ensures r != null ==> TookFrom(group, r, old(tried), now, now)
      ensures Consistent() && Acted(old(Past()), Past(), r, Claimed(r))
    {
      hide Elect;
      hide Acted;
      hide WellFormed;
      hide Consistent;
      hide Peer.Lawful;
      hide StakeIn;
      hide Valid;
      hide EligibleAt;
      hide Admits;
      hide Candidate;
      OursInPool(group);
      s := Section(group, Runs(group.peers), States(group.peers), tried, now);
      var eligible := EligibleAt(group.peers, now);
      EligibleAreCandidates(group, now);
      r := ElectAndCommit(group.peers, eligible, now, map p | p in eligible :: now);
    }

    /** The critical section of a single-peer group; the clock reading is the caller's last. */
    method PickFast(group: PeerGroup, ghost now: int) returns (r: Peer?, ghost s: Section)
      requires Valid() && Consistent() && Ours(group) && group.single
      modifies this`tried, group.peers
      ensures s == Section(group, old(Runs(group.peers)), old(States(group.peers)), old(tried), now)
      ensures r == null <==> Barren(s)
      ensures SectionOutcome(s, States(group.peers), r)
      ensures r == null ==> tried == old(tried)
      ensures r != null ==> TookFrom(group, r, old(tried), 0, 0)
      ensures Consistent() && Acted(old(Past()), Past(), r, Claimed(r))
    {
      hide SmoothOutcome;
      hide Acted;
      hide Consistent;
      hide Valid;
      hide StakeIn;
      hide Past;
      OursInPool(group);
      s := Section(group, Runs(group.peers), States(group.peers), tried, now);
      r := PickSingle(group.peers[0]);
      assert Candidate(s, 0) == (r != null);
    }

    /** The round-robin critical section; the fast path does not look at the clock. */
    method PickFromGroup(group: PeerGroup, clock: Clock) returns (r: Peer?, ghost s: Section)
      requires Valid() && Consistent() && Ours(group)
      modifies this`tried, this`probeChecked, group.peers, clock
      ensures s == Section(group, old(Runs(group.peers)), old(States(group.peers)), old(tried), clock.now)
      ensures old(clock.now) <= clock.now
      ensures r == null <==> Barren(s)
      ensures r == null <==> NobodyFree(group, old(States(group.peers)), old(tried), clock.now)
      ensures SectionOutcome(s, States(group.peers), r)
      ensures r == null ==> tried == old(tried)
      ensures r != null ==> TookFrom(group, r, old(tried), if group.single then 0 else s.now, if group.single then 0 else s.now)
      ensures Consistent() && Acted(old(Past()), Past(), r, Claimed(r))
    {
      hide SmoothOutcome;
      hide Barren;
      hide NobodyFree;
      hide Acted;
      hide Consistent;
      hide Valid;
      hide StakeIn;
      hide Past;
      if group.single {
        r, s := PickFast(group, clock.now);
      } else {
        var now := clock.Read();
        Untouched();
        r, s := PickSmooth(group, now);
      }
      BarrenInFields(s);
    }

    /** The same, with the section on record. */
    method Consult(group: PeerGroup, clock: Clock) returns (r: Peer?, ghost s: Section)
      requires Valid() && Consistent() && Ours(group)
      modifies this`tried, this`probeChecked, group.peers, clock
      ensures s.group == group && s.tried == old(tried) && old(clock.now) <= clock.now == s.now
      ensures r == null <==> Barren(s)
      ensures SectionOutcome(s, States(group.peers), r)
      ensures r == null ==> tried == old(tried)
      ensures r != null ==> TookFrom(group, r, old(tried), if group.single then 0 else s.now, if group.single then 0 else s.now)
      ensures Consistent() && Acted(old(Past()), Past(), r, Claimed(r))
      ensures Seen(s, Span(old(clock.now), clock.now, old(Past()), Past()))
    {
      hide SectionOutcome;
      hide Barren;
      hide Acted;
      hide Consistent;
      hide Valid;
      hide StakeIn;
      hide Past;
      hide Seen;
      hide TookFrom;
      hide Peer.Account;
      ghost var was, runs, seen := Past(), Runs(group.peers), States(group.peers);
      PastIsTrue(group);
      r, s := PickFromGroup(group, clock);
      ActedIsMoved(was, Past(), r, Claimed(r));
      SeesTruly(group, was, Past(), runs, seen, r, Claimed(r), s, old(clock.now), clock.now);
    }

    /** The group Picks come from at present. */
    ghost predicate Current(group: PeerGroup)
      reads this`backupPhase
    {
      if backupPhase then backup == Some(group) else group == primary
    }

    lemma PhaseHasBackups()
      requires Valid()
      ensures backupPhase ==> backup.Some? && backup.value.peers != []
    {
    }

    /** What a section on the current group leaves the picker as. */
    twostate lemma StaysValid(r: Peer?)
      requires old(Valid()) && backupPhase == old(backupPhase)
      requires tried == if r == null then old(tried) else old(tried) + {r}
      requires r != null ==> if backupPhase then r in Backups() else r in primary.peers
      ensures Valid()
    {
    }

    lemma TookEffect(group: PeerGroup, r: Peer?, was: set<Peer>, phase: bool, now: int, avail: int)
      requires Current(group) && (phase ==> backupPhase)
      requires if r == null then tried == was else TookFrom(group, r, was, now, avail)
      ensures PickEffect(primary, backup, was, phase, tried, backupPhase, r)
    {
    }

    /** The peer was checked and committed with one clock reading, that of the last section. */
    ghost predicate OneClock(log: seq<Section>, r: Peer)
      reads r
    {
      && log != []
      && var s := log[|log| - 1];
         var now := if s.group.single then 0 else s.now;
         LastAct(r, now, now)
    }

    lemma EffectSince(was: set<Peer>, phase: bool, phase': bool, r: Peer?)
      requires PickEffect(primary, backup, was, phase', tried, backupPhase, r) && phase'
      ensures PickEffect(primary, backup, was, phase, tried, backupPhase, r)
    {
    }

    /** A section on the current group, and what it makes of the picker. */
    method PickCurrent(group: PeerGroup, clock: Clock) returns (r: Peer?, ghost s: Section)
      requires Valid() && Consistent() && Current(group)
      modifies this`tried, this`probeChecked, group.peers, clock
      ensures Valid() && Consistent() && clock.now >= old(clock.now)
      ensures s.group == group && s.tried == old(tried)
      ensures r == null <==> Barren(s)
      ensures SectionOutcome(s, States(group.peers), r)
      ensures r == null ==> tried == old(tried)
      ensures r != null ==> r in group.peers && OneClock([s], r)
      ensures PickEffect(primary, backup, old(tried), old(backupPhase), tried, backupPhase, r)
      ensures Acted(old(Past()), Past(), r, Claimed(r))
      ensures Seen(s, Span(old(clock.now), clock.now, old(Past()), Past()))
    {
      hide SectionOutcome;
      hide Barren;
      hide Acted;
      hide Consistent;
      hide Valid;
      hide Seen;
      hide StakeIn;
      hide Past;
      hide PickEffect;
      r, s := Consult(group, clock);
      StaysValid(r);
      TookEffect(group, r, old(tried), old(backupPhase), if group.single then 0 else s.now, if group.single then 0 else s.now);
    }

    /** Enter the backups, if there are any.  The first entry unmarks them. */
    method BackupGroupForPick() returns (group: Option<PeerGroup>)
      requires Valid() && Consistent()
      modifies this`tried, this`backupPhase
      ensures Valid() && Consistent() && tried == old(tried)
      ensures backupPhase == (old(backupPhase) || Backups() != [])
      ensures group == if Backups() == [] then None else backup
    {
      if backup.None? || |backup.value.peers| == 0 {
        return None;
      }
      if !backupPhase {
        backupPhase := true;
        tried := tried - set p | p in backup.value.peers;
        assert tried == old(tried);
      }
      return backup;
    }

    /** The second half of a Pick: the backups, by round-robin. */
    method PickBackup(clock: Clock) returns (r: Peer?, ghost log: seq<Section>)
      requires Valid() && Consistent()
      modifies this, Backups(), clock
      ensures Valid() && Consistent() && clock.now >= old(clock.now)
      ensures Acted(old(Past()), Past(), r, Claimed(r))
      ensures PickEffect(primary, backup, old(tried), old(backupPhase), tried, backupPhase, r) && (r != null ==> backupPhase)
      ensures var groups, w := Consulted(primary, backup, true), Span(old(clock.now), clock.now, old(Past()), Past());
              if r == null then Exhausted(log, groups, old(tried), w)
              else Found(log, groups, old(tried), w, r) && Delivered(log, r)
      ensures r != null ==> OneClock(log, r)
    {
      hide SectionOutcome;
      hide Barren;
      hide Acted;
      hide Consistent;
      hide Valid;
      hide Seen;
      hide StakeIn;
      hide Past;
      hide PickEffect;
      hide Exhausted;
      hide Found;
      hide Consulted;
      var group := BackupGroupForPick();
      Untouched();
      if group.None? {
        NothingMoved();
        NoBackups(tried, Span(old(clock.now), clock.now, Past(), Past()));
        NothingTaken(old(backupPhase));
        return null, [];
      }
      ghost var s;
      r, s := PickCurrent(group.value, clock);
      EffectSince(old(tried), old(backupPhase), true, r);
      OneBackup(s, Span(old(clock.now), clock.now, old(Past()), Past()), r);
      log := [s];
    }

    lemma NoBackups(was: set<Peer>, w: Span)
      requires Backups() == []
      ensures Exhausted([], Consulted(primary, backup, true), was, w)
    {
    }

    lemma NothingTaken(phase: bool)
      requires phase ==> backupPhase
      ensures PickEffect(primary, backup, tried, phase, tried, backupPhase, null)
    {
    }

    lemma OneBackup(s: Section, w: Span, r: Peer?)
      requires backup == Some(s.group) && Backups() != [] && Seen(s, w)
      requires if r == null then Barren(s) else r in s.group.peers
      ensures var groups := Consulted(primary, backup, true);
              if r == null then Exhausted([s], groups, s.tried, w) else Found([s], groups, s.tried, w, r)
    {
      hide Seen;
      hide Barren;
    }

    /** The logs of a barren primary section and of the backups, consulted a while later, make the log of a Pick. */
    lemma BarrenThenBackups(s: Section, rest: seq<Section>, since: int, t: int, until: int,
                            was: Journal, next: Journal, mid: Journal, now: Journal, r: Peer?, st: Stake)
      requires since <= t <= until && s.group == primary && Barren(s) && Seen(s, Span(since, t, was, next))
      requires Moved(was, next, null, NO_STAKE) && Moved(next, mid, null, NO_STAKE) && Moved(mid, now, r, st)
      requires var groups, w := Consulted(primary, backup, true), Span(t, until, mid, now);
               if r == null then Exhausted(rest, groups, s.tried, w) else Found(rest, groups, s.tried, w, r)
      ensures Moved(was, now, r, st)
      ensures var groups, w := Consulted(primary, backup, false), Span(since, until, was, now);
              if r == null then Exhausted([s] + rest, groups, s.tried, w) else Found([s] + rest, groups, s.tried, w, r) && rest != []
    {
      hide Moved;
      hide Within;
      hide Seen;
      hide Barren;
      hide Exhausted;
      hide Found;
      hide Consulted;
      var w := Span(since, until, was, now);
      MovedAfter(was, next, mid, null, NO_STAKE);
      MovedAfter(was, mid, now, r, st);
      MovedAfter(next, mid, now, r, st);
      SpanWithin(was, mid, now, r, st, since, t, until);
      SpanWithin(was, next, now, r, st, since, t, until);
      SeenWithin(s, Span(since, t, was, next), w);
      Widened(rest, Consulted(primary, backup, true), s.tried, Span(t, until, mid, now), w, r);
      BarrenThen(s, rest, primary, backup, w, r);
    }

    /** The primaries were barren: let others run, then turn to the backups. */
    method FallBack(ghost s: Section, ghost since: int, ghost was: Journal, clock: Clock) returns (r: Peer?, ghost rest: seq<Section>)
      requires Valid() && Consistent() && since <= clock.now && Moved(was, Past(), null, NO_STAKE)
      requires s.group == primary && s.tried == tried && Barren(s) && Seen(s, Span(since, clock.now, was, Past()))
      modifies this, Pool(), clock
      ensures Valid() && Consistent() && clock.now >= old(clock.now)
      ensures Moved(was, Past(), r, Claimed(r))
      ensures PickEffect(primary, backup, old(tried), old(backupPhase), tried, backupPhase, r)
      ensures var groups, w := Consulted(primary, backup, false), Span(since, clock.now, was, Past());
              if r == null then Exhausted([s] + rest, groups, old(tried), w)
              else Found([s] + rest, groups, old(tried), w, r) && Delivered([s] + rest, r)
      ensures r != null ==> OneClock([s] + rest, r)
    {
      hide SectionOutcome;
      hide Barren;
      hide Moved;
      hide Acted;
      hide Consistent;
      hide Valid;
      hide Seen;
      hide StakeIn;
      hide Past;
      hide PickEffect;
      hide Exhausted;
      hide Found;
      hide Consulted;
      Yield();
      SameRecord();
      ghost var t, mid := clock.now, Past();
      r, rest := PickBackup(clock);
      ActedIsMoved(mid, Past(), r, Claimed(r));
      BarrenThenBackups(s, rest, since, t, clock.now, was, old(Past()), mid, Past(), r, Claimed(r));
    }

    twostate lemma SameRecord()
      requires tried == old(tried) && backupPhase == old(backupPhase)
      ensures old(Valid()) ==> Valid()
    {
    }

    /** Smooth weighted round-robin, primaries first, then backups. */
    method Pick(clock: Clock) returns (r: Peer?, ghost log: seq<Section>)
      requires Valid() && Consistent()
      modifies this, Pool(), clock
      ensures Valid() && Consistent() && clock.now >= old(clock.now)
      ensures Moved(old(Past()), Past(), r, Claimed(r))
      ensures PickEffect(primary, backup, old(tried), old(backupPhase), tried, backupPhase, r)
      ensures var groups, w := Consulted(primary, backup, old(backupPhase)), Span(old(clock.now), clock.now, old(Past()), Past());
              if r == null then Exhausted(log, groups, old(tried), w)
              else Found(log, groups, old(tried), w, r) && Delivered(log, r)
      ensures r != null ==> OneClock(log, r)
    {
      hide SectionOutcome;
      hide Barren;
      hide Moved;
      hide Acted;
      hide Consistent;
      hide Valid;
      hide Seen;
      hide StakeIn;
      hide Past;
      hide PickEffect;
      hide Exhausted;
      hide Found;
      hide Consulted;
      if backupPhase {
        r, log := PickBackup(clock);
        ActedIsMoved(old(Past()), Past(), r, Claimed(r));
        return;
      }
      ghost var s, rest;
      r, s := PickCurrent(primary, clock);
      ActedIsMoved(old(Past()), Past(), r, Claimed(r));
      log := [s];
      if r != null {
        FoundFirst(s, primary, backup, Span(old(clock.now), clock.now, old(Past()), Past()), r);
        return;
      }
      MovedNowhere(old(Past()), Past(), Claimed(r), NO_STAKE);
      r, rest := FallBack(s, old(clock.now), old(Past()), clock);
      log := log + rest;
    }

    // ---------- Release ----------

    ghost function HomeOf(peer: Peer): PeerGroup {
      if peer.cfg.backup && backup.Some? then backup.value else primary
    }

    /** The picker has selected the peer and not given it back. */
    ghost predicate Holds(p: Peer)
      reads p
    {
      p in Pool() && StakeIn(p, p.events).holds
    }

    /** A stake after its release. */
    ghost function Returned(st: Stake, outcome: Outcome): Stake {
      Stake(st.tried, false, if outcome.Neutral? && !primary.single then None else st.probe, Some(outcome))
    }

    /** The release critical section is the health protocol's, at instant `at`. */
    ghost predicate Settled(before: PeerState, after: PeerState, outcome: Outcome, peer: Peer,
                            probes: map<Peer, Probe>, probes': map<Peer, Probe>, at: int) {
      if HomeOf(peer).single then after == SettleSingle(before) && probes' == probes
      else
        && probes' == (if outcome.Neutral? then probes - {peer} else probes)
        && after == Settle(before, outcome, ProbeIn(probes, peer), at)
    }

    method Done(peer: Peer?, failed: bool, clock: Clock)
      requires Valid() && Consistent() && (peer != null ==> Holds(peer))
      modifies this`probeChecked, clock
      modifies if peer == null then {} else {peer}
      ensures old(clock.now) <= clock.now && Consistent()
      ensures peer != null ==> Gave(old(peer.events), peer, if failed then Failed else Succeeded)
      ensures peer != null ==> Acted(old(Past()), Past(), peer, Returned(StakeIn(peer, old(peer.events)), if failed then Failed else Succeeded))
    {
      Release(peer, failed, false, clock);
    }

    method DoneNeutral(peer: Peer?, clock: Clock)
      requires Valid() && Consistent() && (peer != null ==> Holds(peer))
      modifies this`probeChecked, clock
      modifies if peer == null then {} else {peer}
      ensures old(clock.now) <= clock.now && Consistent()
      ensures peer != null ==> Gave(old(peer.events), peer, Neutral)
      ensures peer != null ==> Acted(old(Past()), Past(), peer, Returned(StakeIn(peer, old(peer.events)), Neutral))
    {
      Release(peer, false, true, clock);
    }

    /** The last thing done to the peer, and the only one since `was`, is that this picker gave it back. */
    ghost predicate Gave(was: seq<Event>, peer: Peer, outcome: Outcome)
      reads peer
    {
      |peer.events| == |was| + 1 && exists at :: peer.events == was + [Released(id, outcome, at)]
    }

    /** What a holder knows of the peer's account. */
    lemma HeldAccount(peer: Peer)
      requires Valid() && Agrees(peer) && Holds(peer)
      ensures var s := peer.Account(primary.single, peer.events);
              && s.peer == peer.State() && s.single == primary.single == HomeOf(peer).single
              && id in s.holders && ProbeFor(s, id) == ProbeIn(probeChecked, peer)
    {
      ConfigFixed(Begin(peer.cfg, primary.single), peer.events);
    }

    /** A release by a holder is an event of the protocol. */
    lemma ReleaseIsEvent(s: Shared, outcome: Outcome, at: int)
      requires id in s.holders && s.single == primary.single
      ensures var e := Released(id, outcome, at);
              && Enabled(s, e)
              && Next(s, e).peer == (if s.single then SettleSingle(s.peer) else Settle(s.peer, outcome, ProbeFor(s, id), at))
              && StakeOf(Next(s, e), id) == Returned(StakeOf(s, id), outcome)
    {
    }

    /** The fields of the peer and the picker's probe record after a release. */
    method Settling(peer: Peer, failed: bool, neutral: bool, clock: Clock) returns (ghost at: int)
      modifies this`probeChecked, clock
      modifies peer`conns, peer`fails, peer`accessed, peer`checked, peer`checkedSeq, peer`effectiveWeight
      ensures old(clock.now) <= at <= clock.now
      ensures var outcome := if neutral then Neutral else if failed then Failed else Succeeded;
              Settled(old(peer.State()), peer.State(), outcome, peer, old(probeChecked), probeChecked, at)
      ensures ReleasedInFields(old(peer.State()), peer.State(), HomeOf(peer).single, failed, neutral,
                               ProbeIn(old(probeChecked), peer), old(clock.now), clock.now)
    {
      at := clock.now;
      var group := if peer.cfg.backup && backup.Some? then backup.value else primary;
      if group.single {
        peer.fails := 0;
        peer.conns := peer.conns - 1;
        return;
      }
      if neutral {
        if peer in probeChecked {
          if peer.checkedSeq == probeChecked[peer].version {
            peer.SetChecked(probeChecked[peer].prior);
          }
          probeChecked := probeChecked - {peer};
        }
        peer.conns := peer.conns - 1;
        return;
      }
      var now := clock.Read();
      at := now;
      if failed {
        peer.fails := peer.fails + 1;
        peer.accessed := now;
        peer.SetChecked(now);
        if peer.cfg.maxFails > 0 {
          peer.effectiveWeight := peer.effectiveWeight - peer.cfg.weight / peer.cfg.maxFails;
        }
        if peer.effectiveWeight < 0 {
          peer.effectiveWeight := 0;
        }
      } else {
        if peer.accessed < peer.checked {
          peer.fails := 0;
        }
      }
      peer.conns := peer.conns - 1;
    }

    /** Give a peer back; only what was taken can be given back, and only once. */
    method Release(peer: Peer?, failed: bool, neutral: bool, clock: Clock)
      requires Valid() && Consistent() && (peer != null ==> Holds(peer))
      modifies this`probeChecked, clock
      modifies if peer == null then {} else {peer}
      ensures old(clock.now) <= clock.now && Consistent()
      ensures peer != null ==>
                ReleasedInFields(old(peer.State()), peer.State(), HomeOf(peer).single, failed, neutral,
                                 ProbeIn(old(probeChecked), peer), old(clock.now), clock.now)
      ensures peer != null ==>
                var outcome := if neutral then Neutral else if failed then Failed else Succeeded;
                && Gave(old(peer.events), peer, outcome)
                && Acted(old(Past()), Past(), peer, Returned(StakeIn(peer, old(peer.events)), outcome))
    {
      hide Acted;
      hide Consistent;
      hide Valid;
      hide After;
      hide Feasible;
      hide Enabled;
      hide Next;
      hide Settle;
      hide ReleasedInFields;
      if peer == null {
        return;
      }
      ghost var outcome := if neutral then Neutral else if failed then Failed else Succeeded;
      ghost var s := peer.Account(primary.single, peer.events);
      AgreesWith(peer);
      HeldAccount(peer);
      ghost var at := Settling(peer, failed, neutral, clock);
      ReleaseIsEvent(s, outcome, at);
      peer.Note(primary.single, Released(id, outcome, at));
      WorkedOnce(old(peer.Past()), peer.Past(), Released(id, outcome, at));
      OnlyOne(peer);
    }
  }

  lemma NoWinnerNoChange(states: seq<PeerState>, el: seq<bool>)
    requires |states| == |el| && forall i :: 0 <= i < |el| ==> !el[i]
    ensures WithSlots(states, Pass(SlotsOf(states), el).slots) == states
  {
  }

  /** A peer nobody has used is lawful, and no picker has a stake in it. */
  lemma UnusedIsLawful(p: Peer, single: bool, id: nat)
    requires p.State() == Initial(p.cfg) && p.events == []
    ensures p.Lawful(single) && StakeOf(p.Account(single, p.events), id) == NO_STAKE
  {
  }

  /** A balancer over new peers, and the picker of its first request. */
  method NewRoundRobin(servers: seq<Option<Server>>, ghost id: nat) returns (rr: RRPicker)
    ensures fresh(rr) && rr.Valid() && rr.Consistent() && rr.tried == {} && !rr.backupPhase && rr.id == id
    ensures Initialised(rr.primary.peers, Members(servers, false)) && Initialised(rr.Backups(), Members(servers, true))
    ensures rr.primary.single <==> |Members(servers, false)| == 1 && Members(servers, true) == []
  {
    var primary, backup := BuildGroups(servers);
    forall p | p in primary.peers || (backup.Some? && p in backup.value.peers)
      ensures p.Lawful(primary.single) && StakeOf(p.Account(primary.single, p.events), id) == NO_STAKE
    {
      UnusedIsLawful(p, primary.single, id);
    }
    rr := new RRPicker(primary, backup, id);
  }
}
