/**
  Many pickers at work on the same peers.  Elsewhere a picker waits while other requests
  do whatever is lawful and not its own doing (`Peers.OtherRequests`).  Here the others are
  pickers too, of any of the seven algorithms, and what they do is the code itself: the
  critical sections of all of them, interleaved in any order, keep every one of them and
  every peer in order.
*/
module Concurrency {
  import opened Peers
  import opened Health
  import opened RoundRobin
  import opened LeastConn
  import opened ConsistentHash
  import opened HashFamily
  import opened Pickers

  /** The picker is in order, and agrees with the pasts of its peers. */
  ghost predicate Ready(pk: Picker)
    reads pk.Own(), pk.Base(), pk.Base().Pool()
  {
    pk.Valid() && pk.Base().Consistent()
  }

  lemma PickedInPool(pk: Picker, tried: set<Peer>, phase: bool, r: Peer?)
    requires var b := pk.Base(); PickEffect(b.primary, b.backup, tried, phase, b.tried, b.backupPhase, r)
    ensures r != null ==> r in pk.Base().Pool()
    ensures r == null ==> pk.Base().tried == tried
  {
  }

  /** What a picker may do next. */
  datatype Move =
    | OwnSection                                // the critical section of its own algorithm
    | RoundRobinSection                         // the one of round-robin, or of least-conn, which is all these two have
    | TurnToBackups                             // give up on the primaries
    | GiveBack(peer: Peer, outcome: Outcome)    // release a peer it holds

  /** The algorithm has a critical section of its own for the group Picks come from at present. */
  predicate HasOwnSection(pk: Picker)
    reads pk.Own(), pk.Base()`backupPhase
  {
    match pk
    case ByRoundRobin(_) => false
    case ByLeastConn(_) => false
    case ByHash(h) => !h.FastPath()
    case ByIPHash(ip) => |ip.Group().peers| >= 2 && |ip.addr| > 0
    case ByRandom(random) => !random.FastPath()
    case ByConsistentHash(c) => !c.FastPath()
  }

  /** The algorithm's own tries are spent. */
  predicate Spent(pk: Picker)
    reads pk.Own()
  {
    match pk
    case ByRoundRobin(_) => true
    case ByLeastConn(_) => true
    case ByHash(h) => h.hashTries > MAX_TRIES
    case ByIPHash(ip) => ip.tries > MAX_TRIES
    case ByRandom(random) => random.tries > MAX_TRIES
    case ByConsistentHash(c) => c.tries > MAX_TRIES
  }

  /** A Pick gets to round-robin: there is nothing else, or it is of no more use. */
  predicate FallsBack(pk: Picker)
    reads pk.Own(), pk.Base()`backupPhase
  {
    !HasOwnSection(pk) || Spent(pk)
  }

  /** A critical section of the round-robin part, on the group Picks come from at present. */
  method BaseSection(pk: Picker, clock: Clock) returns (r: Peer?, ghost s: Section)
    requires Ready(pk)
    modifies pk.Base()`tried, pk.Base()`probeChecked, pk.Base().Pool(), clock
    ensures Ready(pk) && pk.Base().Acted(old(pk.Base().Past()), pk.Base().Past(), r, pk.Base().Claimed(r))
    ensures r != null ==> r in pk.Base().Pool()
    ensures pk.Base().Current(s.group) && s.tried == old(pk.Base().tried) && (r == null <==> Barren(s))
    ensures Seen(s, Span(old(clock.now), clock.now, old(pk.Base().Past()), pk.Base().Past()))
  {
    hide RRPicker.Acted;
    hide RRPicker.Consistent;
    hide RRPicker.Past;
    hide RRPicker.Valid;
    hide SectionOutcome;
    hide LeastSection;
    hide PickEffect;
    hide Picker.Valid;
    hide RRPicker.StakeIn;
    hide Seen;
    hide Barren;
    var b := pk.Base();
    pk.ValidBase();
    b.PhaseHasBackups();
    var group := if b.backupPhase then b.backup.value else b.primary;
    if pk.ByLeastConn? {
      r, s := pk.lc.PickCurrent(group, clock);
    } else {
      r, s := b.PickCurrent(group, clock);
    }
    pk.RestStaysValid();
  }

  /** The critical section of the algorithm itself.  With the tries spent it comes back empty. */
  method OwnSectionOf(pk: Picker, clock: Clock) returns (r: Peer?)
    requires Ready(pk) && HasOwnSection(pk)
    modifies pk.Objects(), pk.Base().Pool(), clock
    ensures Ready(pk) && pk.Base().Acted(old(pk.Base().Past()), pk.Base().Past(), r, pk.Base().Claimed(r))
    ensures r != null ==> r in pk.Base().Pool()
    ensures r == null ==> Spent(pk) && pk.Base().tried == old(pk.Base().tried)
  {
    hide RRPicker.Acted;
    hide RRPicker.Consistent;
    hide RRPicker.Past;
    hide RRPicker.Valid;
    hide PickEffect;
    ghost var tried, phase, draws := pk.Base().tried, pk.Base().backupPhase, [];
    match pk {
      case ByHash(h) =>
        r := h.PickHashed(clock);
      case ByIPHash(ip) =>
        ip.rr.PhaseHasBackups();
        r := ip.PickHashed(ip.Group(), clock);
      case ByRandom(random) =>
        r, draws := random.PickDrawn(clock);
      case ByConsistentHash(c) =>
        r := RingSection(pk, clock);
      case _ =>
    }
    PickedInPool(pk, tried, phase, r);
  }

  method RingSection(pk: Picker, clock: Clock) returns (r: Peer?)
    requires pk.ByConsistentHash? && Ready(pk) && !pk.chash.FastPath()
    modifies pk.Objects(), pk.Base().Pool(), clock
    ensures Ready(pk) && pk.Base().Acted(old(pk.Base().Past()), pk.Base().Past(), r, pk.Base().Claimed(r))
    ensures var b := pk.Base(); PickEffect(b.primary, b.backup, old(b.tried), old(b.backupPhase), b.tried, b.backupPhase, r)
    ensures r == null ==> Spent(pk)
  {
    hide RRPicker.Acted;
    hide RRPicker.Consistent;
    hide RRPicker.Past;
    hide RRPicker.Valid;
    hide PickEffect;
    hide ChashPicker.FirstServer;
    pk.chash.Prepare();
    r := pk.chash.PickOnRing(clock);
  }

  /** Give up on the primaries. */
  method EnterBackups(pk: Picker)
    requires Ready(pk) && (FallsBack(pk) || pk.ByIPHash?)
    modifies pk.Base()`tried, pk.Base()`backupPhase
    ensures Ready(pk) && pk.Base().tried == old(pk.Base().tried)
    ensures pk.Base().backupPhase == (old(pk.Base().backupPhase) || pk.Base().Backups() != [])
  {
    hide RRPicker.Consistent;
    hide RRPicker.Valid;
    pk.ValidBase();
    var group := pk.Base().BackupGroupForPick();
  }

  // ---------- One picker's next step ----------

  /** The peers the picker holds, exactly. */
  ghost predicate HoldsJust(pk: Picker, mine: set<Peer>)
    reads pk.Base().Pool()
  {
    mine == set p | p in pk.Base().Pool() && pk.Base().Holds(p)
  }

  lemma HeldAfter(pk: Picker, mine: set<Peer>, was: Journal, r: Peer?, st: Stake)
    requires pk.Base().Acted(was, pk.Base().Past(), r, st) && HeldIn(pk, mine, was) && (r != null ==> r in was)
    ensures HoldsJust(pk, if r == null then mine else if st.holds then mine + {r} else mine - {r})
  {
    hide RRPicker.StakeIn;
    hide RRPicker.Worked;
    assert pk.Base().Past().Keys == pk.Base().Pool();
    forall p | p in pk.Base().Pool()
      ensures pk.Base().Holds(p) <==> if p == r then st.holds else p in mine
    {
      assert p in was && pk.Base().Past()[p] == p.Past();
    }
  }

  ghost predicate HeldIn(pk: Picker, mine: set<Peer>, was: Journal) {
    mine == set p | p in was && pk.Base().StakeIn(p, was[p].run).holds
  }

  lemma HeldBefore(pk: Picker, mine: set<Peer>)
    requires HoldsJust(pk, mine)
    ensures HeldIn(pk, mine, pk.Base().Past()) && pk.Base().Past().Keys == pk.Base().Pool()
    ensures forall p :: p in mine ==> pk.Base().Holds(p)
  {
    hide RRPicker.StakeIn;
    forall p | p in pk.Base().Pool() ensures pk.Base().Past()[p] == p.Past() {
    }
  }

  lemma WasThere(pk: Picker, was: Journal, r: Peer?, st: Stake)
    requires pk.Base().Acted(was, pk.Base().Past(), r, st)
    ensures was.Keys == pk.Base().Pool()
  {
    assert pk.Base().Past().Keys == pk.Base().Pool();
  }

  /** Give back a peer. */
  method StepBack(pk: Picker, mine: set<Peer>, peer: Peer, outcome: Outcome, clock: Clock)
    requires Ready(pk) && HoldsJust(pk, mine) && peer in mine
    modifies pk.Base()`probeChecked, pk.Base().Pool(), clock
    ensures Ready(pk) && HoldsJust(pk, mine - {peer}) && pk.Base().Alone(old(pk.Base().Past()), pk.Base().Past())
  {
    hide RRPicker.Acted;
    hide RRPicker.Alone;
    hide RRPicker.Past;
    hide RRPicker.StakeIn;
    hide RRPicker.Consistent;
    hide RRPicker.Gave;
    hide RRPicker.Holds;
    hide HoldsJust;
    hide HeldIn;
    hide Picker.Valid;
    ghost var b, was := pk.Base(), pk.Base().Past();
    HeldBefore(pk, mine);
    HoldsIsInPool(b, peer);
    ghost var st := b.Returned(b.StakeIn(peer, peer.events), outcome);
    pk.Done(peer, outcome, clock);
    HeldAfter(pk, mine, was, peer, st);
    b.ActedIsAlone(was, b.Past(), peer, st);
  }

  lemma HoldsIsInPool(b: RRPicker, peer: Peer)
    requires b.Holds(peer)
    ensures peer in b.Pool()
  {
  }

  /** Turn to the backups; no peer is touched. */
  method StepOver(pk: Picker, mine: set<Peer>)
    requires Ready(pk) && HoldsJust(pk, mine) && (FallsBack(pk) || pk.ByIPHash?)
    modifies pk.Base()`tried, pk.Base()`backupPhase
    ensures Ready(pk) && HoldsJust(pk, mine) && pk.Base().Alone(old(pk.Base().Past()), pk.Base().Past())
  {
    hide RRPicker.Acted;
    hide RRPicker.Alone;
    hide RRPicker.Past;
    hide RRPicker.StakeIn;
    hide Ready;
    hide HoldsJust;
    hide HeldIn;
    ghost var b, was := pk.Base(), pk.Base().Past();
    HeldBefore(pk, mine);
    EnterBackups(pk);
    b.Untouched();
    b.NothingMoved();
    HeldAfter(pk, mine, was, null, b.Claimed(null));
    b.ActedIsAlone(was, b.Past(), null, b.Claimed(null));
  }

  /** A critical section, of either kind. */
  method StepForward(pk: Picker, own: bool, mine: set<Peer>, clock: Clock) returns (mine': set<Peer>)
    requires Ready(pk) && HoldsJust(pk, mine) && (own ==> HasOwnSection(pk))
    modifies pk.Objects(), pk.Base().Pool(), clock
    ensures Ready(pk) && HoldsJust(pk, mine') && pk.Base().Alone(old(pk.Base().Past()), pk.Base().Past())
  {
    hide RRPicker.Acted;
    hide RRPicker.Alone;
    hide RRPicker.Past;
    hide RRPicker.StakeIn;
    hide HoldsJust;
    hide HeldIn;
    hide Ready;
    hide Seen;
    hide Barren;
    ghost var b, was := pk.Base(), pk.Base().Past();
    HeldBefore(pk, mine);
    var r;
    ghost var s;
    if own {
      r := OwnSectionOf(pk, clock);
    } else {
      r, s := BaseSection(pk, clock);
    }
    mine' := if r == null then mine else mine + {r};
    WasThere(pk, was, r, b.Claimed(r));
    HeldAfter(pk, mine, was, r, b.Claimed(r));
    b.ActedIsAlone(was, b.Past(), r, b.Claimed(r));
  }

  /** A picker that has no such move at present lets it be. */
  predicate Allowed(pk: Picker, mine: set<Peer>, move: Move)
    reads pk.Own(), pk.Base()`backupPhase
  {
    match move
    case OwnSection => HasOwnSection(pk)
    case RoundRobinSection => FallsBack(pk)
    case TurnToBackups => FallsBack(pk) || pk.ByIPHash?
    case GiveBack(peer, _) => peer in mine
  }

  /** The picker makes a move. */
  method Step(pk: Picker, mine: set<Peer>, move: Move, clock: Clock) returns (mine': set<Peer>)
    requires Ready(pk) && HoldsJust(pk, mine) && Allowed(pk, mine, move)
    modifies pk.Objects(), pk.Base().Pool(), clock
    ensures Ready(pk) && HoldsJust(pk, mine') && pk.Base().Alone(old(pk.Base().Past()), pk.Base().Past())
  {
    hide RRPicker.Alone;
    hide RRPicker.Past;
    hide HoldsJust;
    hide Ready;
    match move
    case OwnSection =>
      mine' := StepForward(pk, true, mine, clock);
    case RoundRobinSection =>
      mine' := StepForward(pk, false, mine, clock);
    case TurnToBackups =>
      StepOver(pk, mine);
      mine' := mine;
    case GiveBack(peer, outcome) =>
      StepBack(pk, mine, peer, outcome, clock);
      mine' := mine - {peer};
  }

  // ---------- All of them ----------

  /** Different pickers of one balancer. */
  ghost predicate Separate(a: Picker, b: Picker) {
    && a.Base() != b.Base() && a.Base().id != b.Base().id && a.Own() !! b.Own()
    && a.Base().primary == b.Base().primary && a.Base().backup == b.Base().backup
  }

  /** The pickers of a balancer, each in order, with the peers each of them holds. */
  ghost predicate Together(pks: seq<Picker>, held: seq<set<Peer>>)
    reads set i, o | 0 <= i < |pks| && o in pks[i].Own() :: o, set i | 0 <= i < |pks| :: pks[i].Base()
    reads set i, p | 0 <= i < |pks| && p in pks[i].Base().Pool() :: p
  {
    && |held| == |pks|
    && (forall i, j :: 0 <= i < |pks| && 0 <= j < |pks| && i != j ==> Separate(pks[i], pks[j]))
    && (forall i :: 0 <= i < |pks| ==> Ready(pks[i]) && HoldsJust(pks[i], held[i]))
  }

  /** One picker's step spares the others. */
  twostate lemma Bystander(both: (Picker, Picker))
    requires Separate(both.0, both.1) && both.0.Base().Consistent()
    requires both.0.Base().Alone(old(both.0.Base().Past()), both.0.Base().Past())
    requires old(Ready(both.1)) && unchanged(both.1.Own()) && unchanged(both.1.Base())
    ensures Ready(both.1)
    ensures forall p: Peer :: old(allocated(p)) ==> (old(both.1.Base().Holds(p)) <==> both.1.Base().Holds(p))
  {
    hide Picker.Valid;
    hide RRPicker.Consistent;
    hide RRPicker.Past;
    hide RRPicker.Alone;
    both.1.StaysValid();
    both.0.Base().Spares(both.1.Base());
  }

  /** Picker number `i` makes a move. */
  method Act(pks: seq<Picker>, held: seq<set<Peer>>, i: nat, move: Move, clock: Clock) returns (held': seq<set<Peer>>)
    requires i < |pks| && Together(pks, held) && Allowed(pks[i], held[i], move)
    modifies pks[i].Objects(), pks[i].Base().Pool(), clock
    ensures Together(pks, held') && pks[i].Base().Alone(old(pks[i].Base().Past()), pks[i].Base().Past())
  {
    hide Ready;
    hide RRPicker.Holds;
    hide RRPicker.Alone;
    hide RRPicker.Past;
    hide RRPicker.Consistent;
    var mine := Step(pks[i], held[i], move, clock);
    held' := held[i := mine];
    ReadyIs(pks[i]);
    forall j | 0 <= j < |pks| && j != i ensures Ready(pks[j]) && HoldsJust(pks[j], held[j]) {
      assert Separate(pks[i], pks[j]);
      Bystander((pks[i], pks[j]));
    }
  }

  lemma ReadyIs(pk: Picker)
    requires Ready(pk)
    ensures pk.Base().Consistent()
  {
  }

  ghost predicate ByOneOf(pks: seq<Picker>, e: Event) {
    e.Weighed? || exists i :: 0 <= i < |pks| && e.id == pks[i].Base().id
  }

  /** All that was added to the peers' pasts is the doing of these pickers. */
  ghost predicate Theirs(pks: seq<Picker>, was: Journal, now: Journal) {
    && was.Keys == now.Keys
    && forall p :: p in was ==>
         && was[p].run <= now[p].run
         && forall k :: |was[p].run| <= k < |now[p].run| ==> ByOneOf(pks, now[p].run[k])
  }

  lemma TheirsNext(pks: seq<Picker>, i: nat, start: Journal, was: Journal, now: Journal)
    requires i < |pks| && Theirs(pks, start, was) && pks[i].Base().Alone(was, now)
    ensures Theirs(pks, start, now)
  {
    forall p, k | p in start && |start[p].run| <= k < |now[p].run| ensures ByOneOf(pks, now[p].run[k]) {
      assert pks[i].Base().Worked(was[p], now[p]);
      if k < |was[p].run| {
        assert now[p].run[k] == was[p].run[k];
      } else {
        assert pks[i].Base().Own(now[p].run[k]);
      }
    }
  }

  /** Picker number `who` is to make a move. */
  datatype Turn = Turn(who: nat, move: Move)

  /**
    Any number of pickers of one balancer, of any algorithms, move in any order: `turns`
    is an arbitrary schedule of critical sections, of the algorithm's own or of round-robin
    to which it falls back, and of releases.  Throughout, every picker agrees with the
    pasts of its peers, `held` is what each holds, and every peer is lawful, so that
    `Peers.LawfulIsSafe` applies to it; and nothing is done to the peers but in the name of
    the picker that does it.  A turn that asks for a move the picker's code does not
    have at that point is passed over.
  */
  method Crowd(pks: seq<Picker>, before: seq<set<Peer>>, turns: seq<Turn>, clock: Clock) returns (held: seq<set<Peer>>)
    requires pks != [] && Together(pks, before) && forall k :: 0 <= k < |turns| ==> turns[k].who < |pks|
    modifies set i, o | 0 <= i < |pks| && o in pks[i].Objects() :: o
    modifies pks[0].Base().Pool(), clock
    ensures Together(pks, held)
    ensures forall p :: p in pks[0].Base().Pool() ==> p.Lawful(pks[0].Base().primary.single)
    ensures Theirs(pks, old(pks[0].Base().Past()), pks[0].Base().Past())
  {
    hide RRPicker.Alone;
    held := before;
    ghost var start := pks[0].Base().Past();
    for k := 0 to |turns|
      invariant Together(pks, held) && Theirs(pks, start, pks[0].Base().Past())
    {
      var i, move := turns[k].who, turns[k].move;
      if Allowed(pks[i], held[i], move) {
        ghost var was := pks[0].Base().Past();
        OnePool(pks, i);
        held := Act(pks, held, i, move, clock);
        OnePool(pks, i);
        TheirsNext(pks, i, start, was, pks[0].Base().Past());
      }
    }
    pks[0].Base().LawfulAll();
  }

  lemma OnePool(pks: seq<Picker>, i: nat)
    requires i < |pks| && (i != 0 ==> Separate(pks[0], pks[i]))
    ensures pks[i].Base().Pool() == pks[0].Base().Pool() && pks[i].Base().Past() == pks[0].Base().Past()
  {
  }
}
