/** iphash.go: a peer from a rolling hash of the client address, first among the primaries, then among the backups. */
module IPHash {
  import opened Sums
  import opened PeerStates
  import opened Health
  import opened Peers
  import opened RoundRobin
  import opened Weighted
  import opened HashFamily

  const SEED: int := 89
  const MODULUS: int := 6271

  /** One octet; with a value below the modulus the product stays far inside 32 bits. */
  function FoldOctet(hash: int, b: Byte): (r: int)
    requires 0 <= hash < MODULUS
    ensures 0 <= r < MODULUS && hash * 113 + b < WORD
  {
    (hash * 113 + b) % MODULUS
  }

  /** The whole address, octet by octet. */
  function Fold(addr: seq<Byte>, hash: int): (r: int)
    requires 0 <= hash < MODULUS
    ensures 0 <= r < MODULUS
  {
    if addr == [] then hash else FoldOctet(Fold(addr[..|addr| - 1], hash), addr[|addr| - 1])
  }

  /** The rolling hash of candidate number `n`, counting from one: the n-fold fold of the seed. */
  function Rolling(addr: seq<Byte>, n: nat): (r: int)
    ensures 0 <= r < MODULUS
  {
    if n == 0 then SEED else Fold(addr, Rolling(addr, n - 1))
  }

  // ---------- What the fold computes: a numeral in base 113, without the remainders on the way ----------

  function Power113(n: nat): nat {
    if n == 0 then 1 else 113 * Power113(n - 1)
  }

  /** The digits read in base 113, the most significant first. */
  function Numeral(digits: seq<int>): int {
    if digits == [] then 0 else digits[0] * Power113(|digits| - 1) + Numeral(digits[1..])
  }

  function Repeated(addr: seq<Byte>, n: nat): seq<Byte> {
    if n == 0 then [] else Repeated(addr, n - 1) + addr
  }

  lemma {:induction false} NumeralGrows(digits: seq<int>, d: int)
    ensures Numeral(digits + [d]) == 113 * Numeral(digits) + d
  {
    if digits != [] {
      NumeralGrows(digits[1..], d);
      assert (digits + [d])[1..] == digits[1..] + [d];
      assert digits[0] * (113 * Power113(|digits| - 1)) == 113 * (digits[0] * Power113(|digits| - 1));
    }
  }

  lemma RemainderCarries(x: int, b: Byte)
    ensures (x % 6271 * 113 + b) % 6271 == (113 * x + b) % 6271
  {
    var q, y := 113 * (x / 6271), x % 6271 * 113 + b;
    assert 113 * x + b == 6271 * q + y;
    assert y == 6271 * (y / 6271) + y % 6271;
    assert 113 * x + b == 6271 * (q + y / 6271) + y % 6271;
  }

  lemma {:induction false} FoldExtends(digits: seq<int>, addr: seq<Byte>)
    ensures Fold(addr, Numeral(digits) % 6271) == Numeral(digits + addr) % 6271
  {
    if addr == [] {
      assert digits + addr == digits;
    } else {
      var init, b := addr[..|addr| - 1], addr[|addr| - 1];
      FoldExtends(digits, init);
      NumeralGrows(digits + init, b);
      RemainderCarries(Numeral(digits + init), b);
      assert digits + addr == digits + init + [b];
    }
  }

  /** The rolling hash is 89 followed by the address once per candidate, as one numeral in base 113, modulo 6271. */
  lemma {:induction false} RollingIsNumeral(addr: seq<Byte>, n: nat)
    ensures Rolling(addr, n) == Numeral([89] + Repeated(addr, n)) % 6271
  {
    if n > 0 {
      RollingIsNumeral(addr, n - 1);
      FoldExtends([89] + Repeated(addr, n - 1), addr);
      assert [89] + Repeated(addr, n) == [89] + Repeated(addr, n - 1) + addr;
    }
  }

  method FoldAddress(addr: seq<Byte>, start: int) returns (hash: int)
    requires 0 <= start < MODULUS
    ensures hash == Fold(addr, start)
  {
    hash := start;
    for i := 0 to |addr|
      invariant 0 <= hash < MODULUS && hash == Fold(addr[..i], start)
    {
      assert addr[..i + 1][..i] == addr[..i];
      assert hash * 113 + addr[i] < WORD;
      hash := (hash * 113 + addr[i]) % MODULUS;
    }
    assert addr[..|addr|] == addr;
  }

  class IPHashPicker {
    const rr: RRPicker
    const addr: seq<Byte>   // three octets of an IPv4 address or all of an IPv6 one; empty when there is no usable address
    var hash: int
    var tries: nat
    ghost var candidates: nat   // candidates looked at so far, over all Picks

    constructor (rr: RRPicker, addr: seq<Byte>)
      requires rr.Valid() && rr.tried == {} && !rr.backupPhase
      requires rr.primary.totalWeight < WORD && (rr.backup.Some? ==> rr.backup.value.totalWeight < WORD)
      ensures Valid() && this.rr == rr && this.addr == addr && tries == candidates == 0
    {
      this.rr, this.addr := rr, addr;
      hash, tries, candidates := SEED, 0, 0;
    }

    /** The group the next Pick hashes over. */
    function Group(): PeerGroup
      reads rr`backupPhase
    {
      if rr.backupPhase && rr.backup.Some? then rr.backup.value else rr.primary
    }

    ghost predicate Valid()
      reads this, rr`tried, rr`backupPhase
    {
      && rr.Valid() && 0 <= hash < MODULUS
      && rr.primary.totalWeight < WORD && (rr.backup.Some? ==> rr.backup.value.totalWeight < WORD)
      && (tries <= MAX_TRIES ==> hash == Rolling(addr, candidates))
    }

    /** The peer candidate number `n` falls on in `group`. */
    ghost function CandidateIn(group: PeerGroup, n: nat): (i: nat)
      requires group.totalWeight == Sum(WeightsOf(group.peers)) > 0
      ensures i < |group.peers|
    {
      OwnerOf(WeightsOf(group.peers), Rolling(addr, n) % group.totalWeight)
    }

    /** Which candidates are refused, going by the peers as seen and the peers tried. */
    ghost function Refusals(group: PeerGroup, seen: seq<PeerState>, tried: set<Peer>, since: int): nat -> bool {
      (n: nat) =>
        && |seen| == |group.peers| && group.totalWeight == Sum(WeightsOf(group.peers)) > 0
        && Refused(seen[CandidateIn(group, n)], group.peers[CandidateIn(group, n)] in tried, since)
    }

    /** `r` is the first candidate after number `from` that was not refused, and it alone was committed. */
    ghost predicate FirstAcceptable(group: PeerGroup, from: nat, seen: seq<PeerState>, tried: set<Peer>, since: int, until: int, r: Peer)
      reads this`candidates, group.peers, r
    {
      && from < candidates && group.totalWeight == Sum(WeightsOf(group.peers)) > 0
      && AllRefused(Refusals(group, seen, tried, since), from + 1, candidates)
      && r == group.peers[CandidateIn(group, candidates)]
      && OnlyTook(group.peers, seen, r) && rr.JustTook(r, since, until)
    }

    /**
      What a Pick has come to, given the tries and candidates used before it and the peers
      of its group as it found them: the first acceptable candidate, or round-robin after
      really looking at candidates until the tries were spent.
    */
    ghost predicate Promised(tries0: nat, from: nat, group: PeerGroup, seen: seq<PeerState>, tried: set<Peer>, since: int, until: int,
                             log: seq<Section>, r: Peer?)
      reads this, group.peers
      reads if r == null then {} else {r}
    {
      if |group.peers| < 2 || addr == [] then tries == tries0 && candidates == from && (r != null ==> log != [])
      else if r != null && log == [] then
        && tries0 <= tries <= 20 && candidates - from == tries - tries0 + 1 && hash == Rolling(addr, candidates)
        && FirstAcceptable(group, from, seen, tried, since, until, r)
      else
        && tries == UsedUp(tries0) && candidates - from == tries - tries0
        && AllRefused(Refusals(group, seen, tried, since), from + 1, candidates + 1)
    }

    lemma IsFirst(group: PeerGroup, from: nat, seen: seq<PeerState>, tried: set<Peer>, since: int, now: int, until: int, r: Peer)
      requires from < candidates && group.totalWeight == Sum(WeightsOf(group.peers)) > 0 && since <= now
      requires AllRefused(Refusals(group, seen, tried, since), from + 1, candidates)
      requires r == group.peers[CandidateIn(group, candidates)] && OnlyTook(group.peers, seen, r) && rr.JustTook(r, now, until)
      ensures FirstAcceptable(group, from, seen, tried, since, until, r)
    {
    }

    /** The candidate after `from`: fold the address in once more and walk. */
    method NextCandidate(group: PeerGroup, from: int, ghost n: nat) returns (rolled: int, selected: Peer)
      requires WellFormed(group) && 0 < group.totalWeight < WORD && from == Rolling(addr, n)
      ensures rolled == Rolling(addr, n + 1) && selected == group.peers[CandidateIn(group, n + 1)]
    {
      rolled := FoldAddress(addr, from);
      selected := LinearWalk(group.peers, rolled % group.totalWeight);
    }

    /** The loop, from the rolled hash of candidate `candidates`: the first acceptable candidate, until the tries are spent. */
    method Search(group: PeerGroup, clock: Clock, ghost since: int) returns (selected: Peer?, rolled: int)
      requires WellFormed(group) && 0 < group.totalWeight < WORD && since <= clock.now
      requires tries <= MAX_TRIES ==> hash == Rolling(addr, candidates)
      modifies this`tries, this`candidates, clock
      ensures clock.now >= old(clock.now) && tries >= old(tries)
      ensures candidates == old(candidates) + tries - old(tries) + (if selected == null then 0 else 1)
      ensures AllRefused(Refusals(group, States(group.peers), rr.tried, since), old(candidates) + 1,
                         if selected == null then candidates + 1 else candidates)
      ensures if selected == null then tries == UsedUp(old(tries)) else tries <= 20
      ensures selected != null ==>
                && rolled == Rolling(addr, candidates) && selected == group.peers[CandidateIn(group, candidates)]
                && !selected.cfg.down && selected !in rr.tried && Available(selected.State(), clock.now)
    {
      hide AllRefused;
      hide Refused;
      hide Available;
      hide CandidateIn;
      hide Refusals;
      hide Rolling;
      ghost var refused := Refusals(group, States(group.peers), rr.tried, since);
      NoneRefused(refused, candidates + 1);
      rolled := hash;
      while tries <= MAX_TRIES
        invariant clock.now >= old(clock.now)
        invariant candidates - old(candidates) == tries - old(tries) >= 0 && (tries <= 21 || tries == old(tries))
        invariant old(tries) <= MAX_TRIES ==> rolled == Rolling(addr, candidates)
        invariant AllRefused(refused, old(candidates) + 1, candidates + 1)
        decreases MAX_TRIES + 1 - tries
      {
        ghost var t := clock.now;
        rolled, selected := NextCandidate(group, rolled, candidates);
        candidates := candidates + 1;
        var ok := Acceptable(rr, selected, clock);
        if ok {
          return;
        }
        RefusedAt(group, candidates, t, since);
        RefusedOneMore(refused, old(candidates) + 1, candidates);
        tries := tries + 1;
      }
      selected := null;
    }

    lemma RefusedAt(group: PeerGroup, n: nat, t: int, since: int)
      requires group.totalWeight == Sum(WeightsOf(group.peers)) > 0 && since <= t
      requires var p := group.peers[CandidateIn(group, n)]; Refused(p.State(), p in rr.tried, t)
      ensures Refusals(group, States(group.peers), rr.tried, since)(n)
    {
    }

    /** Take the lock, read the clock and search; the peers are left alone. */
    method Look(group: PeerGroup, clock: Clock) returns (selected: Peer?, rolled: int, now: int)
      requires Valid() && rr.Consistent() && rr.Current(group) && |group.peers| >= 2
      modifies this`tries, this`candidates, clock
      ensures rr.Valid() && rr.Consistent() && rr.Past() == old(rr.Past()) && States(group.peers) == old(States(group.peers))
      ensures old(clock.now) <= now <= clock.now && tries >= old(tries)
      ensures candidates == old(candidates) + tries - old(tries) + (if selected == null then 0 else 1)
      ensures AllRefused(Refusals(group, old(States(group.peers)), rr.tried, old(clock.now)), old(candidates) + 1,
                         if selected == null then candidates + 1 else candidates)
      ensures group.totalWeight == Sum(WeightsOf(group.peers)) > 0 && !group.single
      ensures if selected == null then tries == UsedUp(old(tries)) else tries <= 20
      ensures selected != null ==>
                && 0 <= rolled == Rolling(addr, candidates) && selected == group.peers[CandidateIn(group, candidates)]
                && !selected.cfg.down && selected !in rr.tried && Available(selected.State(), clock.now)
    {
      hide AllRefused;
      hide RRPicker.Consistent;
      hide RRPicker.Past;
      hide RRPicker.Valid;
      hide CandidateIn;
      hide Rolling;
      hide Refusals;
      ghost var seen := States(group.peers);
      rr.OursInPool(group);
      PopulatedWeighs(group);
      now := clock.Read();
      selected, rolled := Search(group, clock, old(clock.now));
      assert States(group.peers) == seen;
      rr.Untouched();
      rr.SameRecord();
    }

    /** The hashed critical section.  The rolled hash is kept only when a candidate is taken. */
    method PickHashed(group: PeerGroup, clock: Clock) returns (r: Peer?)
      requires Valid() && rr.Consistent() && rr.Current(group) && |group.peers| >= 2
      modifies this, rr`tried, rr`probeChecked, group.peers, clock
      ensures Valid() && rr.Consistent() && clock.now >= old(clock.now)
      ensures rr.Acted(old(rr.Past()), rr.Past(), r, rr.Claimed(r))
      ensures PickEffect(rr.primary, rr.backup, old(rr.tried), old(rr.backupPhase), rr.tried, rr.backupPhase, r)
      ensures candidates == old(candidates) + tries - old(tries) + (if r == null then 0 else 1)
      ensures r == null ==>
                && hash == old(hash) && tries == UsedUp(old(tries)) && rr.tried == old(rr.tried)
                && rr.Past() == old(rr.Past()) && States(group.peers) == old(States(group.peers))
                && AllRefused(Refusals(group, old(States(group.peers)), old(rr.tried), old(clock.now)), old(candidates) + 1, candidates + 1)
      ensures r != null ==>
                && old(tries) <= tries <= 20 && hash == Rolling(addr, candidates)
                && FirstAcceptable(group, old(candidates), old(States(group.peers)), old(rr.tried), old(clock.now), clock.now, r)
    {
      hide AllRefused;
      hide RRPicker.Consistent;
      hide RRPicker.Acted;
      hide RRPicker.Past;
      hide RRPicker.Valid;
      hide PickEffect;
      hide CandidateIn;
      hide Rolling;
      hide Refusals;
      hide FirstAcceptable;
      hide OnlyTook;
      hide WellFormed;
      ghost var seen := States(group.peers);
      var rolled, now;
      r, rolled, now := Look(group, clock);
      if r == null {
        rr.NothingMoved();
        rr.NothingTaken(rr.backupPhase);
        return;
      }
      Keep(group, r, rolled, now, clock.now);
      IsFirst(group, old(candidates), seen, old(rr.tried), old(clock.now), now, clock.now, r);
    }

    /** Commit the candidate and keep the hash that led to it. */
    method Keep(ghost group: PeerGroup, peer: Peer, rolled: int, now: int, ghost avail: int)
      requires rr.Valid() && rr.Consistent() && rr.Current(group) && !group.single
      requires rr.primary.totalWeight < WORD && (rr.backup.Some? ==> rr.backup.value.totalWeight < WORD)
      requires peer in group.peers && peer !in rr.tried && !peer.cfg.down
      requires now <= avail && Available(peer.State(), avail)
      requires rolled == Rolling(addr, candidates)
      modifies this`hash, rr`tried, rr`probeChecked, peer
      ensures Valid() && hash == rolled && rr.JustTook(peer, now, avail)
      ensures PickEffect(rr.primary, rr.backup, old(rr.tried), old(rr.backupPhase), rr.tried, rr.backupPhase, peer)
      ensures OnlyTook(group.peers, old(States(group.peers)), peer)
      ensures rr.Consistent() && rr.Acted(old(rr.Past()), rr.Past(), peer, rr.Claimed(peer))
    {
      hide RRPicker.Consistent;
      hide RRPicker.Acted;
      hide RRPicker.Past;
      hide RRPicker.Valid;
      hide PickEffect;
      hide Rolling;
      hide OnlyTook;
      hash := rolled;
      rr.Untouched();
      rr.SameRecord();
      CommitCandidate(rr, group, peer, now, avail);
    }

    method Pick(clock: Clock) returns (r: Peer?, ghost log: seq<Section>)
      requires Valid() && rr.Consistent()
      modifies this, rr, rr.Pool(), clock
      ensures Valid() && rr.Consistent() && clock.now >= old(clock.now)
      ensures rr.Moved(old(rr.Past()), rr.Past(), r, rr.Claimed(r))
      ensures PickEffect(rr.primary, rr.backup, old(rr.tried), old(rr.backupPhase), rr.tried, rr.backupPhase, r)
      ensures Promised(old(tries), old(candidates), old(Group()), old(States(Group().peers)), old(rr.tried), old(clock.now), clock.now, log, r)
      ensures r != null && log == [] ==> rr.backupPhase == old(rr.backupPhase)
      ensures var groups, w := Consulted(rr.primary, rr.backup, old(rr.backupPhase)),
                               Span(old(clock.now), clock.now, old(rr.Past()), rr.Past());
              if r == null then Exhausted(log, groups, old(rr.tried), w)
              else log == [] || (Found(log, groups, old(rr.tried), w, r) && Delivered(log, r))
    {
      hide AllRefused;
      hide FirstAcceptable;
      hide SectionOutcome;
      hide RRPicker.Consistent;
      hide RRPicker.Moved;
      hide RRPicker.Acted;
      hide RRPicker.Past;
      hide RRPicker.Valid;
      hide PickEffect;
      hide Exhausted;
      hide Found;
      hide Consulted;
      hide Rolling;
      var group := Group();
      if |group.peers| < 2 || |addr| == 0 {
        r, log := rr.Pick(clock);
        return;
      }
      rr.PhaseHasBackups();
      r := PickHashed(group, clock);
      rr.ActedIsMoved(old(rr.Past()), rr.Past(), r, rr.Claimed(r));
      if r != null {
        return r, [];
      }
      rr.MovedNowhere(old(rr.Past()), rr.Past(), rr.Claimed(r), NO_STAKE);
      r, log := PickAfter(rr, clock, old(clock.now), old(rr.Past()));
    }
  }
}
