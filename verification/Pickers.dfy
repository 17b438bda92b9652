/** The seven pickers behind one interface, and what every run of Picks of any of them guarantees. */
module Pickers {
  import opened PeerStates
  import opened Peers
  import opened Health
  import opened RoundRobin
  import opened LeastConn
  import opened Hash
  import opened IPHash
  import opened Random
  import opened ConsistentHash

  /** A picker's counters, the numbers drawn so far, and the group it is to pick from as it stands. */
  datatype Before = Before(
    tries: nat, count: nat, rolls: seq<int>, group: PeerGroup, seen: seq<PeerState>, tried: set<Peer>, since: int)

  datatype Picker =
    | ByRoundRobin(rr: RRPicker)
    | ByLeastConn(lc: LeastConnPicker)
    | ByHash(hash: HashPicker)
    | ByIPHash(ip: IPHashPicker)
    | ByRandom(random: RandomPicker)   // plain or two-choices
    | ByConsistentHash(chash: ChashPicker)
  {
    /** The round-robin picker every algorithm embeds. */
    function Base(): RRPicker {
      match this
      case ByRoundRobin(rr) => rr
      case ByLeastConn(lc) => lc.rr
      case ByHash(h) => h.rr
      case ByIPHash(ip) => ip.rr
      case ByRandom(r) => r.rr
      case ByConsistentHash(c) => c.rr
    }

    /** The picker objects a Pick may change. */
    ghost function Objects(): set<object> {
      {Base()} + Own() + if ByRandom? then {random.dice} else {}
    }

    ghost function Own(): set<object> {
      match this
      case ByRoundRobin(_) => {}
      case ByLeastConn(lc) => {lc}
      case ByHash(h) => {h}
      case ByIPHash(ip) => {ip}
      case ByRandom(r) => {r}
      case ByConsistentHash(c) => {c}
    }

    ghost predicate Valid()
      reads Own(), Base()`tried, Base()`backupPhase
    {
      match this
      case ByRoundRobin(rr) => rr.Valid()
      case ByLeastConn(lc) => lc.rr.Valid()
      case ByHash(h) => h.Valid()
      case ByIPHash(ip) => ip.Valid()
      case ByRandom(r) => r.Valid()
      case ByConsistentHash(c) => c.Valid()
    }

    lemma ValidBase()
      requires Valid()
      ensures Base().Valid()
    {
    }

    /** What is not part of a picker's record cannot invalidate it. */
    twostate lemma StaysValid()
      requires old(Valid()) && old(Base().tried) == Base().tried && old(Base().backupPhase) == Base().backupPhase
      requires unchanged(Own())
      ensures Valid()
    {
    }

    /** A section of the round-robin part on the current group does not invalidate the rest. */
    twostate lemma RestStaysValid()
      requires old(Valid()) && Base().Valid() && Base().backupPhase == old(Base().backupPhase) && unchanged(Own())
      ensures Valid()
    {
      hide RRPicker.Valid;
    }

    /** The picker is in order and its account of a run of Picks balances. */
    ghost predicate Books(l: Account)
      reads Own(), Base(), Base().Pool()
    {
      && Valid() && Base().Consistent() && Accounted(Base(), Base().Past(), l)
      && Tracks(this, l.All(), Base().tried, Base().backupPhase)
    }

    /** What happens elsewhere does not touch the books. */
    twostate lemma BooksKept(l: Account)
      requires old(Books(l)) && unchanged(Own()) && unchanged(Base()) && unchanged(Base().Pool())
      ensures Books(l)
    {
      StaysValid();
      Base().Untouched();
    }

    /** The peers worth an attempt. */
    ghost function Usable(): set<Peer> {
      set p | p in Base().Pool() && !p.cfg.down
    }

    /** What there is to know of a picker when a Pick begins. */
    ghost function Outset(clock: Clock): (b: Before)
      reads Objects(), Base().Pool(), clock
    {
      var group := if ByIPHash? then ip.Group() else Base().primary;
      var seen, tried := States(group.peers), Base().tried;
      match this
      case ByRoundRobin(_) => Before(0, 0, [], group, seen, tried, clock.now)
      case ByLeastConn(_) => Before(0, 0, [], group, seen, tried, clock.now)
      case ByHash(h) => Before(h.hashTries, h.rehash, [], group, seen, tried, clock.now)
      case ByIPHash(ip) => Before(ip.tries, ip.candidates, [], group, seen, tried, clock.now)
      case ByRandom(random) => Before(random.tries, 0, random.dice.rolls, group, seen, tried, clock.now)
      case ByConsistentHash(c) => Before(c.tries, 0, [], group, seen, tried, clock.now)
    }

    /**
      What its algorithm promises of a Pick: least-conn the least loaded of the group, the
      others their own candidate while tries remain; and all but least-conn, where they get
      to round-robin, its winner.
    */
    ghost predicate Promised(b: Before, until: int, log: seq<Section>, r: Peer?)
      reads Objects(), Base().Pool(), LastPeers(log), b.group.peers
      reads if r == null then {} else {r}
    {
      && (r != null && log != [] ==> if ByLeastConn? then DeliveredLeast(log, r) else Delivered(log, r))
      && match this
         case ByRoundRobin(_) => r != null ==> log != []
         case ByLeastConn(_) => r != null ==> log != [] && TookLightest(log[|log| - 1], r)
         case ByHash(h) => h.Promised(b.tries, b.count, b.seen, b.tried, b.since, until, log, r)
         case ByIPHash(ip) => ip.Promised(b.tries, b.count, b.group, b.seen, b.tried, b.since, until, log, r)
         case ByRandom(random) => random.Promised(b.tries, b.rolls, b.seen, b.tried, b.since, until, log, r)
         case ByConsistentHash(c) => c.Promised(b.tries, b.seen, b.tried, b.since, until, log, r)
    }

    /** Every algorithm's Pick. */
    method Pick(clock: Clock) returns (r: Peer?, ghost log: seq<Section>)
      requires Valid() && Base().Consistent()
      modifies Objects(), Base().Pool(), clock
      ensures Valid() && Base().Consistent() && clock.now >= old(clock.now)
      ensures Base().Moved(old(Base().Past()), Base().Past(), r, Base().Claimed(r))
      ensures var b := Base(); PickEffect(b.primary, b.backup, old(b.tried), old(b.backupPhase), b.tried, b.backupPhase, r)
      ensures var b := Base();
              var groups, w := Consulted(b.primary, b.backup, old(b.backupPhase)), Span(old(clock.now), clock.now, old(b.Past()), b.Past());
              if r == null then Exhausted(log, groups, old(b.tried), w)
              else if log == [] then b.backupPhase == old(b.backupPhase)
              else Found(log, groups, old(b.tried), w, r)
      ensures Promised(old(Outset(clock)), clock.now, log, r)
    {
      hide RRPicker.Consistent;
      hide RRPicker.Moved;
      hide RRPicker.Past;
      hide RRPicker.Valid;
      hide Exhausted;
      hide Found;
      hide Consulted;
      hide PickEffect;
      hide SectionOutcome;
      hide LeastOutcome;
      hide TookLightest;
      hide HashPicker.Promised;
      hide IPHashPicker.Promised;
      hide RandomPicker.Promised;
      hide ChashPicker.Promised;
      match this
      case ByRoundRobin(rr) =>
        r, log := rr.Pick(clock);
      case ByLeastConn(lc) =>
        r, log := lc.Pick(clock);
      case ByHash(h) =>
        r, log := h.Pick(clock);
      case ByIPHash(ip) =>
        r, log := ip.Pick(clock);
      case ByRandom(random) =>
        r, log := random.Pick(clock);
      case ByConsistentHash(c) =>
        r, log := c.Pick(clock);
    }

    /** Other requests run; they share the peers but not this picker. */
    method Others()
      requires Valid() && Base().Consistent()
      modifies Base().Pool()
      ensures Valid() && Base().Consistent()
      ensures Base().Moved(old(Base().Past()), Base().Past(), null, NO_STAKE)
    {
      hide RRPicker.Consistent;
      hide RRPicker.Moved;
      hide RRPicker.Past;
      hide Valid;
      Base().Yield();
      StaysValid();
    }

    /** Every algorithm's release, of a peer the picker holds. */
    method Done(peer: Peer, outcome: Outcome, clock: Clock)
      requires Valid() && Base().Consistent() && Base().Holds(peer)
      modifies Base()`probeChecked, peer, clock
      ensures Valid() && Base().Consistent() && clock.now >= old(clock.now)
      ensures Base().Gave(old(peer.events), peer, outcome)
      ensures Base().Acted(old(Base().Past()), Base().Past(), peer, Base().Returned(Base().StakeIn(peer, old(peer.events)), outcome))
    {
      hide RRPicker.Consistent;
      hide RRPicker.Acted;
      hide RRPicker.Past;
      hide RRPicker.Gave;
      hide RRPicker.StakeIn;
      hide Valid;
      hide RRPicker.Valid;
      ValidBase();
      match outcome {
        case Neutral => Base().DoneNeutral(peer, clock);
        case Failed => Base().Done(peer, true, clock);
        case Succeeded => Base().Done(peer, false, clock);
      }
      StaysValid();
    }
  }

  /** The backups are turned to only when no primary is left: a Pick that did so found the primaries barren. */
  lemma BackupsOnlyWhenBarren(b: RRPicker, log: seq<Section>, tried: set<Peer>, w: Span, r: Peer)
    requires b.Valid() && Found(log, Consulted(b.primary, b.backup, false), tried, w, r) && r.cfg.backup
    ensures |log| == 2 && log[0].group == b.primary && log[0].tried == tried && Seen(log[0], w) && Barren(log[0])
  {
    hide Barren;
    hide Seen;
  }

  /**
    A nil result, for one peer and in its own fields: at some moment during the Pick every
    peer the picker could still have had was tried, down, at its cap, or in quarantine.
  */
  lemma NilMeansNobodyFree(b: RRPicker, phase: bool, tried: set<Peer>, log: seq<Section>, w: Span, p: Peer)
    returns (run: seq<Event>, now: int)
    requires b.Valid() && Exhausted(log, Consulted(b.primary, b.backup, phase), tried, w)
    requires (b.backup.Some? && p in b.backup.value.peers) || (!phase && p in b.primary.peers)
    ensures p in w.was && p in w.now && w.was[p].run <= run && run <= w.now[p].run && w.since <= now <= w.until
    ensures var q := p.Account(b.primary.single, run).peer;
            || p in tried || q.cfg.down || (q.cfg.maxConns > 0 && q.conns >= q.cfg.maxConns)
            || (!b.primary.single && q.cfg.maxFails > 0 && q.fails >= q.cfg.maxFails && now - q.checked <= q.cfg.failTimeout)
  {
    var k := if b.backup.Some? && p in b.backup.value.peers then |log| - 1 else 0;
    var s := log[k];
    BarrenInFields(s);
    hide Barren;
    var i :| 0 <= i < |s.group.peers| && s.group.peers[i] == p;
    run, now := s.runs[i], s.now;
  }

  // ---------- Runs of Picks ----------

  /** A picker's own record at one point of a run. */
  datatype Record = Record(tried: set<Peer>, phase: bool)

  /** Successive Picks of one picker: `rs[k]` led from record `k` to record `k + 1`. */
  ghost predicate PickRun(primary: PeerGroup, backup: Option<PeerGroup>, recs: seq<Record>, rs: seq<Peer?>) {
    && |recs| == |rs| + 1
    && forall k :: 0 <= k < |rs| ==>
         PickEffect(primary, backup, recs[k].tried, recs[k].phase, recs[k + 1].tried, recs[k + 1].phase, rs[k])
  }

  lemma {:induction false} RecordsGrow(primary: PeerGroup, backup: Option<PeerGroup>, recs: seq<Record>, rs: seq<Peer?>, i: nat, j: nat)
    requires PickRun(primary, backup, recs, rs) && i <= j < |recs|
    ensures recs[i].tried <= recs[j].tried && (recs[i].phase ==> recs[j].phase)
    decreases j
  {
    if i < j {
      RecordsGrow(primary, backup, recs, rs, i, j - 1);
      assert PickEffect(primary, backup, recs[j - 1].tried, recs[j - 1].phase, recs[j].tried, recs[j].phase, rs[j - 1]);
    }
  }

  /** No picker returns the same peer twice, and once a backup was returned no primary is. */
  lemma NoRepeatsAndNoWayBack(primary: PeerGroup, backup: Option<PeerGroup>, recs: seq<Record>, rs: seq<Peer?>, i: nat, j: nat)
    requires PickRun(primary, backup, recs, rs) && i < j < |rs| && rs[i] != null && rs[j] != null
    requires (forall p :: p in primary.peers ==> !p.cfg.backup)
    requires backup.Some? ==> forall p :: p in backup.value.peers ==> p.cfg.backup
    ensures rs[i] != rs[j]
    ensures rs[i].cfg.backup ==> rs[j].cfg.backup && backup.Some? && rs[j] in backup.value.peers
  {
    RecordsGrow(primary, backup, recs, rs, i + 1, j);
    assert PickEffect(primary, backup, recs[i].tried, recs[i].phase, recs[i + 1].tried, recs[i + 1].phase, rs[i]);
    assert PickEffect(primary, backup, recs[j].tried, recs[j].phase, recs[j + 1].tried, recs[j + 1].phase, rs[j]);
  }

  /** Attempts in the order made: distinct usable peers, primaries before backups. */
  ghost predicate Orderly(attempts: seq<Peer>, usable: set<Peer>) {
    && Distinct(attempts)
    && (forall p :: p in attempts ==> p in usable)
    && (forall i, j :: 0 <= i < j < |attempts| && attempts[i].cfg.backup ==> attempts[j].cfg.backup)
  }

  lemma {:induction false} AttemptsBounded(attempts: seq<Peer>, usable: set<Peer>)
    requires Distinct(attempts) && forall p :: p in attempts ==> p in usable
    ensures |attempts| <= |usable|
    decreases |attempts|
  {
    if attempts != [] {
      var p, rest := attempts[|attempts| - 1], attempts[..|attempts| - 1];
      assert forall q :: q in rest ==> q in attempts && q != p;
      AttemptsBounded(rest, usable - {p});
    }
  }

  ghost predicate EnteredBackups(attempts: seq<Peer>) {
    exists p :: p in attempts && p.cfg.backup
  }

  ghost function Tried(attempts: seq<Peer>): set<Peer> {
    set p | p in attempts
  }

  /** How the attempts made so far are mirrored in a picker's record. */
  ghost predicate Tracks(pk: Picker, attempts: seq<Peer>, tried: set<Peer>, phase: bool) {
    Orderly(attempts, pk.Usable()) && tried == Tried(attempts) && (phase <==> EnteredBackups(attempts))
  }

  lemma TracksNext(pk: Picker, attempts: seq<Peer>, tried: set<Peer>, phase: bool, tried': set<Peer>, phase': bool, r: Peer)
    requires pk.Base().Valid() && Tracks(pk, attempts, tried, phase)
    requires PickEffect(pk.Base().primary, pk.Base().backup, tried, phase, tried', phase', r)
    ensures r !in attempts && Tracks(pk, attempts + [r], tried', phase')
    ensures |attempts| + 1 <= |pk.Usable()|
  {
    var next := attempts + [r];
    assert r in pk.Usable();
    assert forall p :: p in next <==> p in attempts || p == r;
    AttemptsBounded(next, pk.Usable());
  }

  // ---------- Every selection is reported once ----------

  /** Selected once, given back once with the outcome given. */
  ghost predicate Closed(st: Stake, outcome: Outcome) {
    st.tried && !st.holds && st.outcome == Some(outcome)
  }

  /**
    Of all the peers the picker has selected exactly the given ones, each once, and has
    given each back once, with the outcome given.
  */
  ghost predicate Settled(b: RRPicker, now: Journal, picked: seq<Peer>, outcomes: seq<Outcome>) {
    && |outcomes| == |picked| && Distinct(picked)
    && (forall p :: p in now && p !in picked ==> b.StakeIn(p, now[p].run) == NO_STAKE)
    && (forall k :: 0 <= k < |picked| ==> picked[k] in now && Closed(b.StakeIn(picked[k], now[picked[k]].run), outcomes[k]))
  }

  /** The same, but that it holds `r` besides. */
  ghost predicate Holding(b: RRPicker, now: Journal, picked: seq<Peer>, outcomes: seq<Outcome>, r: Peer) {
    && |outcomes| == |picked| && Distinct(picked) && r in now && r !in picked
    && (forall p :: p in now && p !in picked && p != r ==> b.StakeIn(p, now[p].run) == NO_STAKE)
    && (forall k :: 0 <= k < |picked| ==> picked[k] in now && Closed(b.StakeIn(picked[k], now[picked[k]].run), outcomes[k]))
    && b.StakeIn(r, now[r].run).tried && b.StakeIn(r, now[r].run).holds
  }

  lemma SettledAtFirst(b: RRPicker)
    requires b.Consistent() && b.tried == {}
    ensures Settled(b, b.Past(), [], [])
  {
  }

  lemma SettledThenHolding(b: RRPicker, was: Journal, now: Journal, picked: seq<Peer>, outcomes: seq<Outcome>, r: Peer, st: Stake)
    requires Settled(b, was, picked, outcomes) && b.Moved(was, now, r, st) && r in was && r !in picked && st.tried && st.holds
    ensures Holding(b, now, picked, outcomes, r)
  {
    hide RRPicker.StakeIn;
  }

  lemma OthersKeepSettled(b: RRPicker, was: Journal, now: Journal, picked: seq<Peer>, outcomes: seq<Outcome>, st: Stake)
    requires Settled(b, was, picked, outcomes) && b.Moved(was, now, null, st)
    ensures Settled(b, now, picked, outcomes)
  {
    hide RRPicker.StakeIn;
  }

  lemma OthersKeepHolding(b: RRPicker, was: Journal, now: Journal, picked: seq<Peer>, outcomes: seq<Outcome>, r: Peer, st: Stake)
    requires Holding(b, was, picked, outcomes, r) && b.Moved(was, now, null, st)
    ensures Holding(b, now, picked, outcomes, r)
  {
    hide RRPicker.StakeIn;
  }

  lemma HoldingThenSettled(b: RRPicker, was: Journal, now: Journal, picked: seq<Peer>, outcomes: seq<Outcome>, r: Peer, outcome: Outcome)
    requires Holding(b, was, picked, outcomes, r) && b.Moved(was, now, r, b.Returned(b.StakeIn(r, was[r].run), outcome))
    ensures Settled(b, now, picked + [r], outcomes + [outcome])
  {
    hide RRPicker.StakeIn;
    var picked', outcomes' := picked + [r], outcomes + [outcome];
    forall k | 0 <= k < |picked'| ensures picked'[k] in now && Closed(b.StakeIn(picked'[k], now[picked'[k]].run), outcomes'[k]) {
      if k < |picked| {
        assert picked[k] in was && picked[k] != r;
      }
    }
  }

  lemma HoldingHolds(b: RRPicker, picked: seq<Peer>, outcomes: seq<Outcome>, r: Peer)
    requires Holding(b, b.Past(), picked, outcomes, r)
    ensures b.Holds(r) && r in b.Pool() && r in b.Past() && b.Past()[r].run == r.events
  {
  }

  /** Pasts only grow, and the picker has done nothing in anyone else's name. */
  ghost predicate Grown(b: RRPicker, was: Journal, now: Journal) {
    was.Keys == now.Keys && forall p :: p in was ==> b.Grew(was[p], now[p])
  }

  lemma MovedGrows(b: RRPicker, a: Journal, was: Journal, now: Journal, r: Peer?, st: Stake)
    requires Grown(b, a, was) && b.Moved(was, now, r, st)
    ensures Grown(b, a, now)
  {
    hide RRPicker.StakeIn;
    hide RRPicker.Grew;
    forall p | p in a ensures b.Grew(a[p], now[p]) {
      b.GrewAfter(a[p], was[p], now[p]);
    }
  }

  /**
    A run of Picks and releases: the peers' pasts when it began, the peers picked and
    given back with what outcome, and the one picked last if it is still out.
  */
  datatype Account = Account(start: Journal, picked: seq<Peer>, outcomes: seq<Outcome>, held: Option<Peer>)
  {
    ghost function All(): seq<Peer> {
      if held.Some? then picked + [held.value] else picked
    }

    ghost function Holds(r: Peer): Account {
      this.(held := Some(r))
    }

    ghost function Closes(outcome: Outcome): Account
      requires held.Some?
    {
      Account(start, picked + [held.value], outcomes + [outcome], None)
    }
  }

  /** What the account says is what the peers' pasts say. */
  ghost predicate Accounted(b: RRPicker, now: Journal, l: Account) {
    && Grown(b, l.start, now)
    && if l.held.None? then Settled(b, now, l.picked, l.outcomes) else Holding(b, now, l.picked, l.outcomes, l.held.value)
  }

  lemma BooksOpen(pk: Picker)
    requires pk.Valid() && pk.Base().Consistent() && pk.Base().tried == {} && !pk.Base().backupPhase
    ensures pk.Books(Account(pk.Base().Past(), [], [], None))
  {
    SettledAtFirst(pk.Base());
  }

  /** Other requests run. */
  method LetOthers(pk: Picker, ghost l: Account)
    requires pk.Books(l)
    modifies pk.Base().Pool()
    ensures pk.Books(l)
  {
    hide Settled;
    hide Holding;
    hide Grown;
    hide RRPicker.Consistent;
    hide RRPicker.Moved;
    hide RRPicker.Past;
    hide Picker.Valid;
    hide Tracks;
    ghost var b, was := pk.Base(), pk.Base().Past();
    pk.Others();
    MovedGrows(b, l.start, was, b.Past(), null, NO_STAKE);
    if l.held.None? {
      OthersKeepSettled(b, was, b.Past(), l.picked, l.outcomes, NO_STAKE);
    } else {
      OthersKeepHolding(b, was, b.Past(), l.picked, l.outcomes, l.held.value, NO_STAKE);
    }
  }

  /** The next Pick of a run, others having been at work since the last release. */
  method PickNext(pk: Picker, clock: Clock, ghost l: Account) returns (peer: Peer?, ghost log: seq<Section>, ghost before: Before)
    requires pk.Books(l) && l.held.None?
    modifies pk.Objects(), pk.Base().Pool(), clock
    ensures clock.now >= old(clock.now) && pk.Promised(before, clock.now, log, peer)
    ensures before == old(pk.Outset(clock)).(seen := before.seen)
    ensures peer == null ==>
              && pk.Base().Consistent() && Accounted(pk.Base(), pk.Base().Past(), l)
              && Orderly(l.picked, pk.Usable()) && |l.picked| <= |pk.Usable()|
              && Exhausted(log, Consulted(pk.Base().primary, pk.Base().backup, EnteredBackups(l.picked)), Tried(l.picked),
                           Span(old(clock.now), clock.now, l.start, pk.Base().Past()))
    ensures peer != null ==> pk.Books(l.Holds(peer)) && |l.picked| + 1 <= |pk.Usable()| && peer in pk.Base().Pool()
  {
    hide Picker.Books;
    hide Picker.Promised;
    hide Exhausted;
    hide Consulted;
    hide Accounted;
    hide Orderly;
    hide RRPicker.Consistent;
    LetOthers(pk, l);
    before := pk.Outset(clock);
    peer, log := PickNow(pk, clock, l);
  }

  /** A Pick within a run. */
  method PickNow(pk: Picker, clock: Clock, ghost l: Account) returns (peer: Peer?, ghost log: seq<Section>)
    requires pk.Books(l) && l.held.None?
    modifies pk.Objects(), pk.Base().Pool(), clock
    ensures clock.now >= old(clock.now) && pk.Promised(old(pk.Outset(clock)), clock.now, log, peer)
    ensures peer == null ==>
              && pk.Base().Consistent() && Accounted(pk.Base(), pk.Base().Past(), l)
              && Orderly(l.picked, pk.Usable()) && |l.picked| <= |pk.Usable()|
              && Exhausted(log, Consulted(pk.Base().primary, pk.Base().backup, EnteredBackups(l.picked)), Tried(l.picked),
                           Span(old(clock.now), clock.now, l.start, pk.Base().Past()))
    ensures peer != null ==> pk.Books(l.Holds(peer)) && |l.picked| + 1 <= |pk.Usable()| && peer in pk.Base().Pool()
  {
    hide Picker.Promised;
    hide Exhausted;
    hide Found;
    hide Consulted;
    hide Settled;
    hide Holding;
    hide Grown;
    hide Within;
    hide RRPicker.Consistent;
    hide RRPicker.Moved;
    hide RRPicker.Past;
    hide RRPicker.Valid;
    hide Picker.Valid;
    hide PickEffect;
    hide Tracks;
    ghost var b, was, tried, phase := pk.Base(), pk.Base().Past(), pk.Base().tried, pk.Base().backupPhase;
    TracksMeans(pk, l.picked, tried, phase);
    peer, log := pk.Pick(clock);
    ghost var st := b.Claimed(peer);
    pk.ValidBase();
    MovedGrows(b, l.start, was, b.Past(), peer, st);
    if peer == null {
      OthersKeepSettled(b, was, b.Past(), l.picked, l.outcomes, st);
      MovedWithin(b, l.start, was, b.Past(), old(clock.now), clock.now, peer, st);
      Widened(log, Consulted(b.primary, b.backup, EnteredBackups(l.picked)), Tried(l.picked),
              Span(old(clock.now), clock.now, was, b.Past()), Span(old(clock.now), clock.now, l.start, b.Past()), null);
    } else {
      TracksNext(pk, l.picked, tried, phase, b.tried, b.backupPhase, peer);
      PickedInPool(b, tried, phase, peer, was, st);
      SettledThenHolding(b, was, b.Past(), l.picked, l.outcomes, peer, st);
    }
  }

  lemma MovedWithin(b: RRPicker, start: Journal, was: Journal, now: Journal, since: int, until: int, r: Peer?, st: Stake)
    requires Grown(b, start, was) && b.Moved(was, now, r, st)
    ensures Within(Span(since, until, was, now), Span(since, until, start, now))
  {
    hide RRPicker.StakeIn;
  }

  /** The release critical section, of the peer that is out. */
  method Release(pk: Picker, peer: Peer, outcome: Outcome, clock: Clock, ghost l: Account)
    requires pk.Books(l) && l.held == Some(peer)
    modifies pk.Base()`probeChecked, peer, clock
    ensures pk.Books(l.Closes(outcome)) && clock.now >= old(clock.now)
  {
    hide Settled;
    hide Holding;
    hide Grown;
    hide RRPicker.Consistent;
    hide RRPicker.Moved;
    hide RRPicker.Acted;
    hide RRPicker.Past;
    hide RRPicker.Gave;
    hide RRPicker.Holds;
    hide RRPicker.Returned;
    hide RRPicker.StakeIn;
    hide Picker.Valid;
    hide Tracks;
    ghost var b, was := pk.Base(), pk.Base().Past();
    HoldingHolds(b, l.picked, l.outcomes, peer);
    pk.Done(peer, outcome, clock);
    b.ActedIsMoved(was, b.Past(), peer, b.Returned(b.StakeIn(peer, was[peer].run), outcome));
    MovedGrows(b, l.start, was, b.Past(), peer, b.Returned(b.StakeIn(peer, was[peer].run), outcome));
    HoldingThenSettled(b, was, b.Past(), l.picked, l.outcomes, peer, outcome);
  }

  /** Give the peer back that is out, others having been at work since it was taken. */
  method GiveBack(pk: Picker, peer: Peer, outcome: Outcome, clock: Clock, ghost l: Account)
    requires pk.Books(l) && l.held == Some(peer) && peer in pk.Base().Pool()
    modifies pk.Base()`probeChecked, pk.Base().Pool(), clock
    ensures pk.Books(l.Closes(outcome)) && clock.now >= old(clock.now)
  {
    hide Picker.Books;
    LetOthers(pk, l);
    Release(pk, peer, outcome, clock, l);
  }

  lemma TracksMeans(pk: Picker, attempts: seq<Peer>, tried: set<Peer>, phase: bool)
    requires Tracks(pk, attempts, tried, phase)
    ensures Orderly(attempts, pk.Usable()) && tried == Tried(attempts) && phase == EnteredBackups(attempts)
    ensures |attempts| <= |pk.Usable()|
  {
    AttemptsBounded(attempts, pk.Usable());
  }

  lemma PickedInPool(b: RRPicker, tried: set<Peer>, phase: bool, r: Peer, was: Journal, st: Stake)
    requires PickEffect(b.primary, b.backup, tried, phase, b.tried, b.backupPhase, r) && b.Moved(was, b.Past(), r, st)
    ensures r in b.Pool() && r in was
  {
    assert b.Past().Keys == b.Pool();
  }

  // ---------- PickWithRetry ----------

  /** One call of the caller's function and its answer. */
  datatype Trial = Trial(peer: Peer, worked: bool)

  /** The caller's function; nothing is known about its answers. */
  class TryFunc {
    ghost var trials: seq<Trial>   // the calls made, in order

    constructor ()
      ensures trials == []
    {
      trials := [];
    }

    method Call(peer: Peer) returns (worked: bool)
      modifies this
      ensures trials == old(trials) + [Trial(peer, worked)]
    {
      worked := *;
      trials := trials + [Trial(peer, worked)];
    }
  }

  ghost function PeersIn(trials: seq<Trial>): (ps: seq<Peer>)
    ensures |ps| == |trials|
  {
    seq(|trials|, i requires 0 <= i < |trials| => trials[i].peer)
  }

  ghost function ReportOn(t: Trial): Outcome {
    if t.worked then Succeeded else Failed
  }

  ghost function ReportsOn(trials: seq<Trial>): (os: seq<Outcome>)
    ensures |os| == |trials|
  {
    seq(|trials|, i requires 0 <= i < |trials| => ReportOn(trials[i]))
  }

  lemma OneMoreTrial(trials: seq<Trial>, t: Trial)
    ensures PeersIn(trials + [t]) == PeersIn(trials) + [t.peer] && ReportsOn(trials + [t]) == ReportsOn(trials) + [ReportOn(t)]
  {
  }

  /** Call the caller's function on a picked peer, while others are at work, and report its answer. */
  method TryPeer(pk: Picker, f: TryFunc, peer: Peer, clock: Clock, ghost l: Account) returns (worked: bool)
    requires pk.Books(l) && l.held == Some(peer) && peer in pk.Base().Pool()
    modifies pk.Base()`probeChecked, pk.Base().Pool(), clock, f
    ensures f.trials == old(f.trials) + [Trial(peer, worked)] && clock.now >= old(clock.now)
    ensures pk.Books(l.Closes(ReportOn(Trial(peer, worked))))
  {
    hide Picker.Books;
    worked := f.Call(peer);
    pk.BooksKept(l);
    GiveBack(pk, peer, if worked then Succeeded else Failed, clock, l);
  }

  ghost function Run(start: Journal, trials: seq<Trial>): Account {
    Account(start, PeersIn(trials), ReportsOn(trials), None)
  }

  lemma RunOneMore(start: Journal, trials: seq<Trial>, t: Trial)
    ensures Run(start, trials).Holds(t.peer).Closes(ReportOn(t)) == Run(start, trials + [t])
  {
    OneMoreTrial(trials, t);
  }

  lemma BooksMean(pk: Picker, l: Account)
    requires pk.Books(l)
    ensures pk.Base().Consistent() && Accounted(pk.Base(), pk.Base().Past(), l)
    ensures Orderly(l.All(), pk.Usable()) && |l.All()| <= |pk.Usable()|
  {
    TracksMeans(pk, l.All(), pk.Base().tried, pk.Base().backupPhase);
  }

  /**
    Try peers until one works.  Whatever the caller's function answers and whatever
    other requests do meanwhile: every call goes to a different usable peer, primaries
    first; each peer is selected once and given back once, with the answer; so there are
    at most as many calls as usable peers.  Giving up means that the last Pick found
    every group it consulted barren of untried peers.
  */
  method PickWithRetry(pk: Picker, f: TryFunc, clock: Clock) returns (result: Peer?, ghost trials: seq<Trial>, ghost log: seq<Section>)
    requires pk.Valid() && pk.Base().Consistent() && pk.Base().tried == {} && !pk.Base().backupPhase
    modifies pk.Objects(), pk.Base().Pool(), clock, f
    ensures f.trials == old(f.trials) + trials
    ensures Orderly(PeersIn(trials), pk.Usable()) && |trials| <= |pk.Usable()|
    ensures pk.Base().Consistent() && Accounted(pk.Base(), pk.Base().Past(), Run(old(pk.Base().Past()), trials))
    ensures forall k :: 0 <= k < |trials| ==> (trials[k].worked <==> k == |trials| - 1 && result != null)
    ensures result != null ==> trials != [] && result == trials[|trials| - 1].peer
    ensures result == null ==>
              Exhausted(log, Consulted(pk.Base().primary, pk.Base().backup, EnteredBackups(PeersIn(trials))), Tried(PeersIn(trials)),
                        Span(old(clock.now), clock.now, old(pk.Base().Past()), pk.Base().Past()))
  {
    hide Picker.Books;
    hide Picker.Promised;
    hide Accounted;
    hide Orderly;
    hide Exhausted;
    hide Within;
    hide Consulted;
    hide EnteredBackups;
    hide Tried;
    hide RRPicker.Consistent;
    hide RRPicker.Past;
    hide Picker.Usable;
    ghost var start := pk.Base().Past();
    BooksOpen(pk);
    trials, log := [], [];
    while true
      invariant pk.Books(Run(start, trials)) && f.trials == old(f.trials) + trials
      invariant clock.now >= old(clock.now) && |trials| <= |pk.Usable()|
      invariant forall k :: 0 <= k < |trials| ==> !trials[k].worked
      decreases |pk.Usable()| - |trials|
    {
      ghost var l, t := Run(start, trials), clock.now;
      ghost var before;
      result, log, before := PickNext(pk, clock, l);
      if result == null {
        LongerSpan(old(clock.now), t, clock.now, start, pk.Base().Past());
        Widened(log, Consulted(pk.Base().primary, pk.Base().backup, EnteredBackups(l.picked)), Tried(l.picked),
                Span(t, clock.now, start, pk.Base().Past()), Span(old(clock.now), clock.now, start, pk.Base().Past()), null);
        return;
      }
      var worked := TryPeer(pk, f, result, clock, l.Holds(result));
      RunOneMore(start, trials, Trial(result, worked));
      trials := trials + [Trial(result, worked)];
      BooksMean(pk, Run(start, trials));
      if worked {
        return;
      }
    }
  }

  lemma LongerSpan(since: int, t: int, until: int, was: Journal, now: Journal)
    requires since <= t
    ensures Within(Span(t, until, was, now), Span(since, until, was, now))
  {
  }
}
