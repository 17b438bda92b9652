/** What the hash-family pickers share: 32-bit words, bytes, the test a candidate must pass, and the way back to round-robin. */
module HashFamily {
  import opened PeerStates
  import opened Health
  import opened Peers
  import opened RoundRobin

  const WORD: int := 0x1_0000_0000

  type Uint32 = x: int | 0 <= x < WORD

  type Byte = x: int | 0 <= x < 256

  /** hash.go, iphash.go and random.go each allow this many rejected candidates. */
  const MAX_TRIES: nat := 20

  /** The tries used up once the loop has run dry: one more than 20, unless they were used up before. */
  ghost function UsedUp(tries: nat): nat {
    if tries <= 20 then 21 else tries
  }

  /** A candidate turned down: gone, already tried, or not available at the instant `since` or later. */
  ghost predicate Refused(p: PeerState, tried: bool, since: int) {
    p.cfg.down || tried || !Available(p, since)
  }

  /** In the peer's own fields. */
  lemma RefusedInFields(p: PeerState, tried: bool, since: int)
    ensures Refused(p, tried, since) <==>
            || p.cfg.down || tried || (p.cfg.maxConns > 0 && p.conns >= p.cfg.maxConns)
            || (p.cfg.maxFails > 0 && p.fails >= p.cfg.maxFails && since - p.checked <= p.cfg.failTimeout)
  {
  }

  /** The test reads the clock again. */
  method Acceptable(rr: RRPicker, peer: Peer, clock: Clock) returns (ok: bool)
    modifies clock
    ensures clock.now >= old(clock.now)
    ensures ok <==> !peer.cfg.down && peer !in rr.tried && Available(peer.State(), clock.now)
    ensures !ok ==> Refused(peer.State(), peer in rr.tried, old(clock.now))
    ensures ok <==>
            && !peer.cfg.down && peer !in rr.tried && (peer.cfg.maxConns > 0 ==> peer.conns < peer.cfg.maxConns)
            && (peer.cfg.maxFails > 0 && peer.fails >= peer.cfg.maxFails ==> clock.now - peer.checked > peer.cfg.failTimeout)
  {
    var now := clock.Read();
    ok := !peer.cfg.down && peer !in rr.tried && Available(peer.State(), now);
  }

  /** Everything numbered from `from` up to `to` was refused. */
  ghost predicate AllRefused(refused: nat -> bool, from: nat, to: int) {
    forall k :: from <= k < to ==> refused(k)
  }

  lemma NoneRefused(refused: nat -> bool, from: nat)
    ensures AllRefused(refused, from, from)
  {
  }

  lemma RefusedOneMore(refused: nat -> bool, from: nat, to: nat)
    requires AllRefused(refused, from, to) && refused(to)
    ensures AllRefused(refused, from, to + 1)
  {
  }

  /** The instant a peer was last committed with, if that is the last thing that happened to it. */
  ghost function TakenAt(r: Peer): int
    reads r
  {
    if r.events != [] && r.events[|r.events| - 1].Selected? then r.events[|r.events| - 1].now else 0
  }

  /** Of the peers as seen, `r` was committed, with the instant its last event tells, and nothing else changed. */
  ghost predicate OnlyTook(peers: seq<Peer>, seen: seq<PeerState>, r: Peer)
    reads peers, r
  {
    && |seen| == |peers|
    && forall i :: 0 <= i < |peers| ==> peers[i].State() == if peers[i] == r then Commit(seen[i], TakenAt(r)) else seen[i]
  }

  /** Commit an acceptable candidate with the instant read when the lock was taken. */
  method CommitCandidate(rr: RRPicker, ghost group: PeerGroup, peer: Peer, now: int, ghost avail: int)
    requires rr.Valid() && rr.Consistent() && rr.Current(group) && !group.single
    requires peer in group.peers && peer !in rr.tried && !peer.cfg.down
    requires now <= avail && Available(peer.State(), avail)
    modifies rr`tried, rr`probeChecked, peer
    ensures rr.Valid() && rr.JustTook(peer, now, avail)
    ensures PickEffect(rr.primary, rr.backup, old(rr.tried), old(rr.backupPhase), rr.tried, rr.backupPhase, peer)
    ensures OnlyTook(group.peers, old(States(group.peers)), peer)
    ensures peer.events == old(peer.events) + [Selected(rr.id, now, avail)]
    ensures rr.Consistent() && rr.Acted(old(rr.Past()), rr.Past(), peer, rr.Claimed(peer))
  {
    hide RRPicker.Valid;
    hide RRPicker.Consistent;
    hide RRPicker.Acted;
    hide RRPicker.Past;
    hide PickEffect;
    rr.OursInPool(group);
    rr.Claim(peer, now, avail);
    rr.StaysValid(peer);
    rr.TookEffect(group, peer, old(rr.tried), old(rr.backupPhase), now, avail);
  }

  /** The tries are spent: let others run, then pick by round-robin.  `since` and `was` tell when the Pick began. */
  method PickAfter(rr: RRPicker, clock: Clock, ghost since: int, ghost was: Journal) returns (r: Peer?, ghost log: seq<Section>)
    requires rr.Valid() && rr.Consistent() && since <= clock.now && rr.Moved(was, rr.Past(), null, NO_STAKE)
    modifies rr, rr.Pool(), clock
    ensures rr.Valid() && rr.Consistent() && clock.now >= old(clock.now)
    ensures rr.Moved(was, rr.Past(), r, rr.Claimed(r))
    ensures PickEffect(rr.primary, rr.backup, old(rr.tried), old(rr.backupPhase), rr.tried, rr.backupPhase, r)
    ensures var groups, w := Consulted(rr.primary, rr.backup, old(rr.backupPhase)), Span(since, clock.now, was, rr.Past());
            if r == null then Exhausted(log, groups, old(rr.tried), w)
            else Found(log, groups, old(rr.tried), w, r) && log != [] && Delivered(log, r)
  {
    hide SectionOutcome;
    hide RRPicker.Valid;
    hide RRPicker.Consistent;
    hide RRPicker.Moved;
    hide RRPicker.Past;
    hide RRPicker.StakeIn;
    hide PickEffect;
    hide Exhausted;
    hide Found;
    hide Consulted;
    hide Within;
    rr.Yield();
    rr.SameRecord();
    ghost var t, mid := clock.now, rr.Past();
    rr.MovedAfter(was, old(rr.Past()), mid, null, NO_STAKE);
    r, log := rr.Pick(clock);
    rr.MovedAfter(was, mid, rr.Past(), r, rr.Claimed(r));
    rr.SpanWithin(was, mid, rr.Past(), r, rr.Claimed(r), since, t, clock.now);
    Widened(log, Consulted(rr.primary, rr.backup, old(rr.backupPhase)), old(rr.tried),
            Span(t, clock.now, mid, rr.Past()), Span(since, clock.now, was, rr.Past()), r);
  }
}

/** hash.go: a peer from the cumulative CRC of the key, with a decimal retry prefix. */
module Hash {
  import opened Sums
  import opened PeerStates
  import opened Health
  import opened Peers
  import opened RoundRobin
  import opened Weighted
  import opened HashFamily

  class HashPicker {
    const rr: RRPicker
    const key: string
    const crc: string -> Uint32   // CRC-32 (IEEE), uninterpreted
    const itoa: nat -> string     // decimal notation, uninterpreted
    var hashTries: nat
    var rehash: nat
    var hash: Uint32

    constructor (rr: RRPicker, key: string, crc: string -> Uint32, itoa: nat -> string)
      requires rr.Valid() && rr.tried == {} && !rr.backupPhase
      requires |rr.primary.peers| >= 2 ==> rr.primary.totalWeight < WORD
      ensures Valid() && this.rr == rr && this.key == key && this.crc == crc && this.itoa == itoa
      ensures hashTries == rehash == 0
    {
      this.rr, this.key, this.crc, this.itoa := rr, key, crc, itoa;
      hashTries, rehash, hash := 0, 0, 0;
      new;
      if |rr.primary.peers| >= 2 {
        PopulatedWeighs(rr.primary);
      }
    }

    /** The 15-bit term of retry number `k`. */
    function Term(k: nat): (t: int)
      ensures 0 <= t < 0x8000
    {
      (crc(if k > 0 then itoa(k) + key else key) / 0x1_0000) % 0x8000
    }

    /** The term is bits 16 to 30 of the checksum: of the key alone at first, of retry number and key later. */
    lemma TermIsMiddleBits(k: nat) returns (top: int, low: int)
      ensures 0 <= top < 2 && 0 <= low < 0x1_0000
      ensures crc(if k == 0 then key else itoa(k) + key) == top * 0x8000_0000 + Term(k) * 0x1_0000 + low
    {
      var c := crc(if k == 0 then key else itoa(k) + key);
      top, low := c / 0x8000_0000, c % 0x1_0000;
    }

    function Terms(k: nat): seq<int> {
      seq(k, j requires 0 <= j < k => Term(j))
    }

    /** The cumulative hash after `k` candidates: the sum of their terms, in 32 bits. */
    function HashAfter(k: nat): Uint32 {
      Sum(Terms(k)) % WORD
    }

    /** Candidate number `k`: it depends on the key and `k` only, never on how the Picks fell. */
    ghost function CandidateIndex(k: nat): (i: nat)
      requires rr.primary.totalWeight == Sum(WeightsOf(rr.primary.peers)) > 0
      ensures i < |rr.primary.peers|
    {
      OwnerOf(WeightsOf(rr.primary.peers), HashAfter(k + 1) % rr.primary.totalWeight)
    }

    /** Which candidates are refused, going by the peers as seen and the peers tried. */
    ghost function Refusals(seen: seq<PeerState>, tried: set<Peer>, since: int): nat -> bool {
      (k: nat) =>
        && |seen| == |rr.primary.peers| && rr.primary.totalWeight == Sum(WeightsOf(rr.primary.peers)) > 0
        && Refused(seen[CandidateIndex(k)], rr.primary.peers[CandidateIndex(k)] in tried, since)
    }

    /** `r` is the first candidate from number `from` on that was not refused, and it alone was committed. */
    ghost predicate FirstAcceptable(from: nat, seen: seq<PeerState>, tried: set<Peer>, since: int, until: int, r: Peer)
      reads this`rehash, rr.primary.peers, r
    {
      && from < rehash && rr.primary.totalWeight == Sum(WeightsOf(rr.primary.peers)) > 0
      && AllRefused(Refusals(seen, tried, since), from, rehash - 1)
      && r == rr.primary.peers[CandidateIndex(rehash - 1)]
      && OnlyTook(rr.primary.peers, seen, r) && rr.JustTook(r, since, until)
    }

    /**
      What a Pick has come to, given the tries and candidates used before it and the
      primaries as it found them.  Off the fast path it either took the first acceptable
      candidate, or really looked at candidates until the tries were spent.
    */
    ghost predicate Promised(tries: nat, from: nat, seen: seq<PeerState>, tried: set<Peer>, since: int, until: int,
                             log: seq<Section>, r: Peer?)
      reads this, rr.primary.peers
      reads if r == null then {} else {r}
    {
      if FastPath() then hashTries == tries && rehash == from && (r != null ==> log != [])
      else if r != null && log == [] then
        && tries <= hashTries <= 20 && hashTries - tries == rehash - from - 1
        && FirstAcceptable(from, seen, tried, since, until, r)
      else
        && hashTries == UsedUp(tries) && hashTries - tries == rehash - from
        && AllRefused(Refusals(seen, tried, since), from, rehash)
    }

    predicate FastPath() {
      key == "" || |rr.primary.peers| < 2
    }

    ghost predicate Valid()
      reads this, rr`tried, rr`backupPhase
    {
      && rr.Valid()
      && (|rr.primary.peers| >= 2 ==> 0 < rr.primary.totalWeight < WORD)
      && hash == HashAfter(rehash)
      // the backups are entered only for good
      && (rr.backupPhase ==> FastPath() || hashTries > MAX_TRIES)
    }

    lemma HashStep(k: nat)
      ensures HashAfter(k + 1) == (HashAfter(k) + Term(k)) % WORD
    {
      assert Terms(k + 1)[..k] == Terms(k);
    }

    ghost predicate Ready()
      reads this
    {
      && WellFormed(rr.primary) && !rr.primary.single
      && 0 < rr.primary.totalWeight < WORD && hash == HashAfter(rehash)
    }

    /** Fold in the next term and walk to the peer it falls on; the walk never falls through to nil. */
    method NextCandidate() returns (selected: Peer)
      requires Ready()
      modifies this`hash, this`rehash
      ensures Ready() && rehash == old(rehash) + 1 && selected == rr.primary.peers[CandidateIndex(old(rehash))]
    {
      HashStep(rehash);
      hide HashAfter;
      hash := (hash + Term(rehash)) % WORD;
      rehash := rehash + 1;
      var w := hash % rr.primary.totalWeight;
      selected := LinearWalk(rr.primary.peers, w);
    }

    /** The loop: the first acceptable candidate, until the tries are spent. */
    method Search(clock: Clock, ghost since: int) returns (selected: Peer?)
      requires Ready() && since <= clock.now
      modifies this, clock
      ensures Ready() && clock.now >= old(clock.now) && hashTries >= old(hashTries)
      ensures hashTries - old(hashTries) == rehash - old(rehash) - (if selected == null then 0 else 1)
      ensures AllRefused(Refusals(States(rr.primary.peers), rr.tried, since), old(rehash),
                         if selected == null then rehash else rehash - 1)
      ensures if selected == null then hashTries == UsedUp(old(hashTries)) else hashTries <= 20
      ensures selected != null ==>
                && selected == rr.primary.peers[CandidateIndex(rehash - 1)]
                && !selected.cfg.down && selected !in rr.tried && Available(selected.State(), clock.now)
    {
      hide AllRefused;
      hide Refused;
      hide Available;
      hide CandidateIndex;
      hide HashAfter;
      hide Refusals;
      ghost var refused := Refusals(States(rr.primary.peers), rr.tried, since);
      NoneRefused(refused, rehash);
      while hashTries <= MAX_TRIES
        invariant Ready() && clock.now >= old(clock.now)
        invariant rehash - old(rehash) == hashTries - old(hashTries) >= 0 && (hashTries <= 21 || hashTries == old(hashTries))
        invariant AllRefused(refused, old(rehash), rehash)
        decreases MAX_TRIES + 1 - hashTries
      {
        ghost var t := clock.now;
        selected := NextCandidate();
        var ok := Acceptable(rr, selected, clock);
        if ok {
          return;
        }
        RefusedAt(rehash - 1, t, since);
        RefusedOneMore(refused, old(rehash), rehash - 1);
        hashTries := hashTries + 1;
      }
      selected := null;
    }

    lemma RefusedAt(k: nat, t: int, since: int)
      requires rr.primary.totalWeight == Sum(WeightsOf(rr.primary.peers)) > 0 && since <= t
      requires var p := rr.primary.peers[CandidateIndex(k)]; Refused(p.State(), p in rr.tried, t)
      ensures Refusals(States(rr.primary.peers), rr.tried, since)(k)
    {
    }

    /** The hashed critical section. */
    method PickHashed(clock: Clock) returns (r: Peer?)
      requires Valid() && rr.Consistent() && !FastPath()
      modifies this, rr`tried, rr`probeChecked, rr.primary.peers, clock
      ensures Valid() && rr.Consistent() && clock.now >= old(clock.now)
      ensures rr.Acted(old(rr.Past()), rr.Past(), r, rr.Claimed(r))
      ensures PickEffect(rr.primary, rr.backup, old(rr.tried), old(rr.backupPhase), rr.tried, rr.backupPhase, r)
      ensures r == null ==>
                && hashTries == UsedUp(old(hashTries)) && hashTries - old(hashTries) == rehash - old(rehash) && rr.tried == old(rr.tried)
                && rr.Past() == old(rr.Past()) && States(rr.primary.peers) == old(States(rr.primary.peers))
                && AllRefused(Refusals(old(States(rr.primary.peers)), old(rr.tried), old(clock.now)), old(rehash), rehash)
      ensures r != null ==>
                && old(hashTries) <= hashTries <= 20 && hashTries - old(hashTries) == rehash - old(rehash) - 1
                && FirstAcceptable(old(rehash), old(States(rr.primary.peers)), old(rr.tried), old(clock.now), clock.now, r)
    {
      hide AllRefused;
      hide RRPicker.Consistent;
      hide RRPicker.Acted;
      hide RRPicker.Past;
      hide RRPicker.Valid;
      hide PickEffect;
      hide CandidateIndex;
      hide HashAfter;
      hide Refusals;
      ghost var seen := States(rr.primary.peers);
      rr.OursInPool(rr.primary);
      var now := clock.Read();
      r := Search(clock, old(clock.now));
      assert States(rr.primary.peers) == seen;
      rr.Untouched();
      rr.SameRecord();
      if r == null {
        rr.NothingMoved();
        rr.NothingTaken(rr.backupPhase);
        return;
      }
      CommitCandidate(rr, rr.primary, r, now, clock.now);
    }

    method Pick(clock: Clock) returns (r: Peer?, ghost log: seq<Section>)
      requires Valid() && rr.Consistent()
      modifies this, rr, rr.Pool(), clock
      ensures Valid() && rr.Consistent() && clock.now >= old(clock.now)
      ensures rr.Moved(old(rr.Past()), rr.Past(), r, rr.Claimed(r))
      ensures PickEffect(rr.primary, rr.backup, old(rr.tried), old(rr.backupPhase), rr.tried, rr.backupPhase, r)
      ensures Promised(old(hashTries), old(rehash), old(States(rr.primary.peers)), old(rr.tried), old(clock.now), clock.now, log, r)
      ensures r != null && log == [] ==> rr.backupPhase == old(rr.backupPhase)
      ensures var groups, w := Consulted(rr.primary, rr.backup, old(rr.backupPhase)),
                               Span(old(clock.now), clock.now, old(rr.Past()), rr.Past());
              if r == null then Exhausted(log, groups, old(rr.tried), w)
              else log == [] || (Found(log, groups, old(rr.tried), w, r) && Delivered(log, r))
    {
      hide AllRefused;
      hide FirstAcceptable;
      hide SectionOutcome;
      hide RRPicker.Consistent;
      hide RRPicker.Moved;
      hide RRPicker.Acted;
      hide RRPicker.Past;
      hide RRPicker.Valid;
      hide PickEffect;
      hide Exhausted;
      hide Found;
      hide Consulted;
      hide HashAfter;
      if FastPath() {
        r, log := rr.Pick(clock);
        return;
      }
      r := PickHashed(clock);
      rr.ActedIsMoved(old(rr.Past()), rr.Past(), r, rr.Claimed(r));
      if r != null {
        return r, [];
      }
      rr.MovedNowhere(old(rr.Past()), rr.Past(), rr.Claimed(r), NO_STAKE);
      r, log := PickAfter(rr, clock, old(clock.now), old(rr.Past()));
    }
  }
}
