/** random.go: weighted random choice, and the less loaded of two. */
module Random {
  import opened Sums
  import opened PeerStates
  import opened Health
  import opened Peers
  import opened RoundRobin
  import opened Weighted
  import opened HashFamily

  /** The balancer's source of random numbers; nothing is known about them but their range. */
  class Dice {
    ghost var rolls: seq<int>   // the numbers drawn, in order

    constructor ()
      ensures rolls == []
    {
      rolls := [];
    }

    method Roll(n: int) returns (x: int)
      requires n > 0
      modifies this
      ensures 0 <= x < n && rolls == old(rolls) + [x]
    {
      x :| 0 <= x < n;
      rolls := rolls + [x];
    }
  }

  class RandomPicker {
    const rr: RRPicker
    const two: bool
    const ranges: seq<Range>
    const dice: Dice
    var tries: nat

    constructor (rr: RRPicker, two: bool, ranges: seq<Range>, dice: Dice)
      requires rr.Valid() && rr.tried == {} && !rr.backupPhase && RangesOf(ranges, rr.primary.peers)
      ensures Valid() && this.rr == rr && this.two == two && this.ranges == ranges && this.dice == dice && tries == 0
    {
      this.rr, this.two, this.ranges, this.dice, tries := rr, two, ranges, dice, 0;
    }

    predicate FastPath() {
      |rr.primary.peers| < 2
    }

    ghost predicate Valid()
      reads this, rr`tried, rr`backupPhase
    {
      && rr.Valid() && RangesOf(ranges, rr.primary.peers)
      && (rr.backupPhase ==> FastPath() || tries > MAX_TRIES)
    }

    /** The primary a drawn number falls on. */
    method RandomSelect(x: int) returns (peer: Peer)
      requires WellFormed(rr.primary) && RangesOf(ranges, rr.primary.peers) && 0 <= x < rr.primary.totalWeight
      ensures peer == rr.primary.peers[OwnerOf(WeightsOf(rr.primary.peers), x)]
    {
      peer := BinarySelect(ranges, rr.primary.peers, x);
    }

    ghost predicate Welcome(p: Peer, until: int)
      reads p, rr`tried
    {
      p in rr.primary.peers && !p.cfg.down && p !in rr.tried && Available(p.State(), until)
    }

    /** The number falls on a primary. */
    ghost predicate InRange(x: int) {
      0 <= x < Sum(WeightsOf(rr.primary.peers))
    }

    /** The primary a number falls on. */
    ghost function Drawn(x: int): (i: nat)
      requires InRange(x)
      ensures i < |rr.primary.peers|
    {
      OwnerOf(WeightsOf(rr.primary.peers), x)
    }

    /** The primary drawn was refused, going by the primaries as seen and the peers tried. */
    ghost predicate Lost(x: int, seen: seq<PeerState>, tried: set<Peer>, since: int) {
      InRange(x) && |seen| == |rr.primary.peers| && Refused(seen[Drawn(x)], rr.primary.peers[Drawn(x)] in tried, since)
    }

    ghost predicate AllLost(draws: seq<int>, seen: seq<PeerState>, tried: set<Peer>, since: int) {
      forall k :: 0 <= k < |draws| ==> Lost(draws[k], seen, tried, since)
    }

    lemma LostOneMore(draws: seq<int>, x: int, seen: seq<PeerState>, tried: set<Peer>, since: int)
      requires AllLost(draws, seen, tried, since) && Lost(x, seen, tried, since)
      ensures AllLost(draws + [x], seen, tried, since)
    {
      hide Lost;
    }

    /** Plain random: the peer is the one the last number fell on, and all before it were refused. */
    ghost predicate OneDrawn(draws: seq<int>, seen: seq<PeerState>, tried: set<Peer>, since: int, r: Peer) {
      && draws != [] && InRange(draws[|draws| - 1]) && r == rr.primary.peers[Drawn(draws[|draws| - 1])]
      && AllLost(draws[..|draws| - 1], seen, tried, since)
    }

    /** Number `first` fell on an acceptable primary, all before it were refused, and all after it fell on that one again or were. */
    ghost predicate Hunting(draws: seq<int>, first: nat, seen: seq<PeerState>, tried: set<Peer>, since: int) {
      && first < |draws| && InRange(draws[first]) && AllLost(draws[..first], seen, tried, since)
      && forall k :: first < k < |draws| ==>
           InRange(draws[k]) && (Drawn(draws[k]) == Drawn(draws[first]) || Lost(draws[k], seen, tried, since))
    }

    lemma HuntOneMore(draws: seq<int>, first: nat, x: int, seen: seq<PeerState>, tried: set<Peer>, since: int)
      requires Hunting(draws, first, seen, tried, since) && InRange(x)
      requires Drawn(x) == Drawn(draws[first]) || Lost(x, seen, tried, since)
      ensures Hunting(draws + [x], first, seen, tried, since)
    {
      hide Lost;
      hide AllLost;
      assert (draws + [x])[..first] == draws[..first];
    }

    lemma HuntBegins(draws: seq<int>, x: int, seen: seq<PeerState>, tried: set<Peer>, since: int)
      requires AllLost(draws, seen, tried, since) && InRange(x)
      ensures Hunting(draws + [x], |draws|, seen, tried, since)
    {
      assert (draws + [x])[..|draws|] == draws;
    }

    /**
      Two choices: the last number fell on a second acceptable primary, and of the two the
      one without more connections per weight is taken, the second one when they tie.
    */
    ghost predicate TwoDrawn(draws: seq<int>, first: nat, seen: seq<PeerState>, tried: set<Peer>, since: int, until: int, r: Peer) {
      && draws != [] && |seen| == |rr.primary.peers|
      && Hunting(draws[..|draws| - 1], first, seen, tried, since) && InRange(draws[|draws| - 1])
      && var i, j := Drawn(draws[first]), Drawn(draws[|draws| - 1]);
         && i != j && Good(i, seen, tried, until) && Good(j, seen, tried, until)
         && r == rr.primary.peers[if seen[j].conns * seen[i].cfg.weight > seen[i].conns * seen[j].cfg.weight then i else j]
    }

    /** An acceptable primary, going by the primaries as seen. */
    ghost predicate Good(i: nat, seen: seq<PeerState>, tried: set<Peer>, until: int) {
      && i < |seen| == |rr.primary.peers|
      && rr.primary.peers[i] !in tried && !seen[i].cfg.down && Available(seen[i], until)
    }

    /** Draw a number and test the primary it falls on. */
    method Draw(clock: Clock, ghost since: int) returns (peer: Peer, ok: bool, ghost x: int)
      requires WellFormed(rr.primary) && RangesOf(ranges, rr.primary.peers) && !FastPath() && since <= clock.now
      modifies clock, dice
      ensures clock.now >= old(clock.now) && dice.rolls == old(dice.rolls) + [x]
      ensures InRange(x) && peer == rr.primary.peers[Drawn(x)]
      ensures ok <==> Welcome(peer, clock.now)
      ensures !ok ==> Lost(x, States(rr.primary.peers), rr.tried, since)
    {
      PopulatedWeighs(rr.primary);
      var number := dice.Roll(rr.primary.totalWeight);
      x := number;
      peer := RandomSelect(number);
      ok := Acceptable(rr, peer, clock);
    }

    /** The plain random loop: draw until a primary is acceptable or the tries are spent. */
    method DrawOne(clock: Clock, ghost since: int) returns (selected: Peer?, ghost draws: seq<int>)
      requires WellFormed(rr.primary) && RangesOf(ranges, rr.primary.peers) && !FastPath() && since <= clock.now
      modifies this`tries, clock, dice
      ensures clock.now >= old(clock.now) && dice.rolls == old(dice.rolls) + draws
      ensures tries >= old(tries) && |draws| == tries - old(tries) + if selected == null then 0 else 1
      ensures if selected == null then tries == UsedUp(old(tries)) && AllLost(draws, States(rr.primary.peers), rr.tried, since)
              else
                && tries <= 20 && Welcome(selected, clock.now)
                && OneDrawn(draws, States(rr.primary.peers), rr.tried, since, selected)
    {
      hide Lost;
      hide AllLost;
      hide InRange;
      hide Drawn;
      draws := [];
      ghost var seen := States(rr.primary.peers);
      NoneLost(seen, since);
      while tries <= MAX_TRIES
        invariant clock.now >= old(clock.now) && |draws| == tries - old(tries) >= 0 && (tries <= 21 || tries == old(tries))
        invariant dice.rolls == old(dice.rolls) + draws && AllLost(draws, seen, rr.tried, since)
        decreases MAX_TRIES + 1 - tries
      {
        var peer, ok;
        ghost var x;
        peer, ok, x := Draw(clock, since);
        if ok {
          assert (draws + [x])[..|draws|] == draws;
          return peer, draws + [x];
        }
        LostOneMore(draws, x, seen, rr.tried, since);
        draws := draws + [x];
        tries := tries + 1;
      }
      return null, draws;
    }

    lemma NoneLost(seen: seq<PeerState>, since: int)
      ensures AllLost([], seen, rr.tried, since)
    {
    }

    /** The two-choices loop: draw two different acceptable primaries; the first one also costs a try. */
    method DrawTwo(clock: Clock, ghost since: int)
      returns (selected: Peer?, ghost draws: seq<int>, ghost first: nat, ghost avail: int)
      requires WellFormed(rr.primary) && RangesOf(ranges, rr.primary.peers) && !FastPath() && since <= clock.now
      modifies this`tries, clock, dice
      ensures old(clock.now) <= avail <= clock.now && dice.rolls == old(dice.rolls) + draws
      ensures tries >= old(tries) && |draws| == tries - old(tries) + if selected == null then 0 else 1
      ensures if selected == null then
                && tries == UsedUp(old(tries))
                && (AllLost(draws, States(rr.primary.peers), rr.tried, since) || Hunting(draws, first, States(rr.primary.peers), rr.tried, since))
              else
                && tries <= 20 && Welcome(selected, avail)
                && TwoDrawn(draws, first, States(rr.primary.peers), rr.tried, since, clock.now, selected)
    {
      hide Lost;
      hide AllLost;
      hide Hunting;
      hide InRange;
      hide Drawn;
      hide Welcome;
      hide Fell;
      hide TwoDrawn;
      hide WellFormed;
      hide RangesOf;
      avail, draws, first := clock.now, [], 0;
      ghost var seen := States(rr.primary.peers);
      NoneLost(seen, since);
      var previous: Peer? := null;
      while tries <= MAX_TRIES
        invariant old(clock.now) <= avail <= clock.now && |draws| == tries - old(tries) >= 0 && (tries <= 21 || tries == old(tries))
        invariant dice.rolls == old(dice.rolls) + draws
        invariant if previous == null then AllLost(draws, seen, rr.tried, since)
                  else
                    && Welcome(previous, avail) && Hunting(draws, first, seen, rr.tried, since)
                    && Fell(draws, first, previous)
        decreases MAX_TRIES + 1 - tries
      {
        var peer, ok;
        ghost var x;
        peer, ok, x := Draw(clock, since);
        if peer == previous || !ok {
          if previous == null {
            LostOneMore(draws, x, seen, rr.tried, since);
          } else {
            FellAgain(draws, first, x, previous, peer);
            HuntOneMore(draws, first, x, seen, rr.tried, since);
          }
          draws := draws + [x];
          tries := tries + 1;
          continue;
        }
        if previous == null {
          HuntBegins(draws, x, seen, rr.tried, since);
          FirstFell(draws, x);
          previous, avail, first := peer, clock.now, |draws|;
          draws := draws + [x];
          tries := tries + 1;
          continue;
        }
        ghost var found := avail;
        selected := peer;
        if peer.conns * previous.cfg.weight > previous.conns * peer.cfg.weight {
          selected := previous;
        } else {
          avail := clock.now;
        }
        WelcomeLater(previous, found, clock.now);
        ChoseOfTwo(draws, first, x, since, clock.now, previous, peer, selected);
        draws := draws + [x];
        return;
      }
      return null, draws, first, avail;
    }

    /** Number `first` fell on `p`. */
    ghost predicate Fell(draws: seq<int>, first: nat, p: Peer) {
      first < |draws| && InRange(draws[first]) && rr.primary.peers[Drawn(draws[first])] == p
    }

    lemma WelcomeLater(p: Peer, t: int, until: int)
      requires Welcome(p, t) && t <= until
      ensures Welcome(p, until)
    {
    }

    lemma FirstFell(draws: seq<int>, x: int)
      requires InRange(x)
      ensures Fell(draws + [x], |draws|, rr.primary.peers[Drawn(x)])
    {
    }

    lemma FellAgain(draws: seq<int>, first: nat, x: int, previous: Peer, peer: Peer)
      requires WellFormed(rr.primary) && Fell(draws, first, previous) && InRange(x) && peer == rr.primary.peers[Drawn(x)]
      ensures peer == previous ==> Drawn(x) == Drawn(draws[first])
      ensures Fell(draws + [x], first, previous)
    {
    }

    lemma ChoseOfTwo(draws: seq<int>, first: nat, x: int, since: int, until: int, previous: Peer, peer: Peer, selected: Peer)
      requires Fell(draws, first, previous) && Hunting(draws, first, States(rr.primary.peers), rr.tried, since)
      requires InRange(x) && peer == rr.primary.peers[Drawn(x)] && peer != previous
      requires Welcome(previous, until) && Welcome(peer, until)
      requires selected == if peer.conns * previous.cfg.weight > previous.conns * peer.cfg.weight then previous else peer
      ensures TwoDrawn(draws + [x], first, States(rr.primary.peers), rr.tried, since, until, selected)
    {
      hide Hunting;
      assert (draws + [x])[..|draws|] == draws;
    }

    /** How the peer was drawn. */
    ghost predicate WasDrawn(draws: seq<int>, seen: seq<PeerState>, tried: set<Peer>, since: int, until: int, r: Peer) {
      if two then exists first :: TwoDrawn(draws, first, seen, tried, since, until, r)
      else OneDrawn(draws, seen, tried, since, r)
    }

    /** Nothing came of the numbers drawn: they fell on refused primaries, or, with two choices, again on the first acceptable one. */
    ghost predicate Fruitless(draws: seq<int>, seen: seq<PeerState>, tried: set<Peer>, since: int) {
      AllLost(draws, seen, tried, since) || (two && exists first :: Hunting(draws, first, seen, tried, since))
    }

    /**
      What a Pick has come to, given the tries used before it, the numbers drawn until then
      and the primaries as it found them: the peer the numbers drawn determine, or
      round-robin after drawing numbers until the tries were spent, none of any use.
    */
    ghost predicate Promised(tries0: nat, rolls: seq<int>, seen: seq<PeerState>, tried: set<Peer>, since: int, until: int,
                             log: seq<Section>, r: Peer?)
      reads this`tries, dice, rr.primary.peers
      reads if r == null then {} else {r}
    {
      && rolls <= dice.rolls
      && var draws := dice.rolls[|rolls|..];
         if FastPath() then tries == tries0 && draws == [] && (r != null ==> log != [])
         else if r != null && log == [] then
           && tries0 <= tries <= 20 && |draws| == tries - tries0 + 1
           && OnlyTook(rr.primary.peers, seen, r) && rr.JustTook(r, since, until) && WasDrawn(draws, seen, tried, since, until, r)
         else
           && tries == UsedUp(tries0) && |draws| == tries - tries0 && Fruitless(draws, seen, tried, since)
    }

    /** Take the lock, read the clock and draw; the peers are left alone. */
    method Look(clock: Clock) returns (selected: Peer?, now: int, ghost avail: int, ghost draws: seq<int>)
      requires Valid() && rr.Consistent() && !FastPath()
      modifies this`tries, clock, dice
      ensures rr.Valid() && rr.Consistent() && rr.Past() == old(rr.Past()) && States(rr.primary.peers) == old(States(rr.primary.peers))
      ensures old(clock.now) <= now <= avail <= clock.now
      ensures dice.rolls == old(dice.rolls) + draws && tries >= old(tries) && |draws| == tries - old(tries) + if selected == null then 0 else 1
      ensures if selected == null then tries == UsedUp(old(tries)) && Fruitless(draws, old(States(rr.primary.peers)), rr.tried, old(clock.now))
              else
                && tries <= 20 && !rr.backupPhase && Welcome(selected, avail)
                && WasDrawn(draws, old(States(rr.primary.peers)), rr.tried, old(clock.now), clock.now, selected)
    {
      hide RRPicker.Consistent;
      hide RRPicker.Past;
      hide RRPicker.Valid;
      hide RangesOf;
      hide OneDrawn;
      hide TwoDrawn;
      hide AllLost;
      rr.OursInPool(rr.primary);
      ghost var seen := States(rr.primary.peers);
      now := clock.Read();
      if two {
        ghost var first;
        selected, draws, first, avail := DrawTwo(clock, old(clock.now));
      } else {
        selected, draws := DrawOne(clock, old(clock.now));
        avail := clock.now;
      }
      assert States(rr.primary.peers) == seen;
      rr.Untouched();
      rr.SameRecord();
    }

    /** The random critical section. */
    method PickDrawn(clock: Clock) returns (r: Peer?, ghost draws: seq<int>)
      requires Valid() && rr.Consistent() && !FastPath()
      modifies this, rr`tried, rr`probeChecked, rr.primary.peers, clock, dice
      ensures Valid() && rr.Consistent() && clock.now >= old(clock.now)
      ensures rr.Acted(old(rr.Past()), rr.Past(), r, rr.Claimed(r))
      ensures PickEffect(rr.primary, rr.backup, old(rr.tried), old(rr.backupPhase), rr.tried, rr.backupPhase, r)
      ensures dice.rolls == old(dice.rolls) + draws && tries >= old(tries) && |draws| == tries - old(tries) + if r == null then 0 else 1
      ensures r == null ==>
                && tries == UsedUp(old(tries)) && rr.tried == old(rr.tried)
                && Fruitless(draws, old(States(rr.primary.peers)), old(rr.tried), old(clock.now))
                && rr.Past() == old(rr.Past()) && States(rr.primary.peers) == old(States(rr.primary.peers))
      ensures r != null ==>
                && tries <= 20
                && OnlyTook(rr.primary.peers, old(States(rr.primary.peers)), r) && rr.JustTook(r, old(clock.now), clock.now)
                && WasDrawn(draws, old(States(rr.primary.peers)), old(rr.tried), old(clock.now), clock.now, r)
    {
      hide RRPicker.Consistent;
      hide RRPicker.Acted;
      hide RRPicker.Past;
      hide RRPicker.Valid;
      hide PickEffect;
      hide OnlyTook;
      hide RangesOf;
      hide WasDrawn;
      hide Fruitless;
      rr.OursInPool(rr.primary);
      var now;
      ghost var avail;
      r, now, avail, draws := Look(clock);
      if r == null {
        rr.NothingMoved();
        rr.NothingTaken(rr.backupPhase);
        return;
      }
      CommitCandidate(rr, rr.primary, r, now, avail);
    }

    method Pick(clock: Clock) returns (r: Peer?, ghost log: seq<Section>)
      requires Valid() && rr.Consistent()
      modifies this, rr, rr.Pool(), clock, dice
      ensures Valid() && rr.Consistent() && clock.now >= old(clock.now)
      ensures rr.Moved(old(rr.Past()), rr.Past(), r, rr.Claimed(r))
      ensures PickEffect(rr.primary, rr.backup, old(rr.tried), old(rr.backupPhase), rr.tried, rr.backupPhase, r)
      ensures Promised(old(tries), old(dice.rolls), old(States(rr.primary.peers)), old(rr.tried), old(clock.now), clock.now, log, r)
      ensures r != null && log == [] ==> rr.backupPhase == old(rr.backupPhase)
      ensures var groups, w := Consulted(rr.primary, rr.backup, old(rr.backupPhase)),
                               Span(old(clock.now), clock.now, old(rr.Past()), rr.Past());
              if r == null then Exhausted(log, groups, old(rr.tried), w)
              else log == [] || (Found(log, groups, old(rr.tried), w, r) && Delivered(log, r))
    {
      hide SectionOutcome;
      hide RRPicker.Consistent;
      hide RRPicker.Moved;
      hide RRPicker.Acted;
      hide RRPicker.Past;
      hide RRPicker.Valid;
      hide PickEffect;
      hide Exhausted;
      hide Found;
      hide Consulted;
      hide OnlyTook;
      hide RangesOf;
      hide WasDrawn;
      hide Fruitless;
      if FastPath() {
        r, log := rr.Pick(clock);
        return;
      }
      ghost var draws;
      r, draws := PickDrawn(clock);
      assert dice.rolls[|old(dice.rolls)|..] == draws;
      rr.ActedIsMoved(old(rr.Past()), rr.Past(), r, rr.Claimed(r));
      if r != null {
        return r, [];
      }
      rr.MovedNowhere(old(rr.Past()), rr.Past(), rr.Claimed(r), NO_STAKE);
      r, log := PickAfter(rr, clock, old(clock.now), old(rr.Past()));
    }
  }
}
