/** The picker of chash.go: walk the ring from the key and take, smoothly, among the peers of the server found. */
module ConsistentHash {
  import opened PeerStates
  import opened Health
  import opened Peers
  import opened RoundRobin
  import opened HashFamily
  import opened Ring

  function AddrOf(p: Peer): string {
    p.cfg.addr
  }

  function EntriesOf(peers: seq<Peer>, seed: string -> seq<Byte>): (es: seq<Entry<Peer>>)
    ensures |es| == |peers|
  {
    seq(|peers|, i requires 0 <= i < |peers| => Entry(peers[i], seed(peers[i].cfg.addr), peers[i].cfg.weight))
  }

  /** The servers of the ring, by address: what is left of the peers when configurations are compared. */
  ghost function ServersOf(peers: seq<Peer>, seed: string -> seq<Byte>): seq<Entry<string>> {
    Renamed(EntriesOf(peers, seed), AddrOf)
  }

  /** The ring of a group's peers. */
  method RingFor(crc: seq<Byte> -> Uint32, seed: string -> seq<Byte>, peers: seq<Peer>) returns (points: seq<Point<Peer>>)
    ensures IsRing(points, Generate(crc, EntriesOf(peers, seed)))
    ensures IsRing(Relabel(points, AddrOf), Generate(crc, ServersOf(peers, seed)))
  {
    hide IsRing;
    points := BuildRing(crc, EntriesOf(peers, seed));
    RelabelRing(points, Generate(crc, EntriesOf(peers, seed)), AddrOf);
    RelabelGenerate(crc, EntriesOf(peers, seed), AddrOf);
  }

  class ChashPicker {
    const rr: RRPicker
    const points: seq<Point<Peer>>
    const key: seq<Byte>
    const crc: seq<Byte> -> Uint32      // CRC-32 (IEEE), uninterpreted
    const seed: string -> seq<Byte>     // host, zero byte and port of an address
    var started: bool
    var cursor: nat
    var tries: nat

    constructor (rr: RRPicker, points: seq<Point<Peer>>, key: seq<Byte>, crc: seq<Byte> -> Uint32, seed: string -> seq<Byte>)
      requires rr.Valid() && rr.tried == {} && !rr.backupPhase
      requires IsRing(Relabel(points, AddrOf), Generate(crc, ServersOf(rr.primary.peers, seed)))
      ensures Valid() && this.rr == rr && this.points == points && this.key == key && this.crc == crc && this.seed == seed
      ensures !started && tries == 0
    {
      this.rr, this.points, this.key, this.crc, this.seed := rr, points, key, crc, seed;
      started, cursor, tries := false, 0, 0;
    }

    predicate FastPath() {
      rr.primary.single || key == [] || points == []
    }

    ghost function Servers(): seq<Entry<string>> {
      ServersOf(rr.primary.peers, seed)
    }

    /** The points are the ring of the primaries' servers. */
    ghost predicate OnRing() {
      IsRing(Relabel(points, AddrOf), Generate(crc, Servers()))
    }

    lemma RingAscends()
      requires OnRing()
      ensures Ascending(points)
    {
      var r := Relabel(points, AddrOf);
      forall i, j | 0 <= i < j < |points| ensures points[i].hash < points[j].hash {
        assert r[i].hash < r[j].hash;
      }
    }

    ghost predicate Valid()
      reads this, rr`tried, rr`backupPhase
    {
      && rr.Valid() && OnRing()
      && (started ==> IsStart(points, crc(key), cursor))
      && (rr.backupPhase ==> FastPath() || tries > MAX_TRIES)
    }

    /** The server `k` steps clockwise from the key. */
    function ServerAt(k: nat): string
      requires points != []
      reads this`cursor
    {
      points[(cursor + k) % |points|].peer.cfg.addr
    }

    /** Every primary of the server was refused, going by the peers as seen and the peers tried. */
    ghost predicate ServerRefused(server: string, seen: seq<PeerState>, tried: set<Peer>, since: int) {
      && |seen| == |rr.primary.peers|
      && forall i :: 0 <= i < |seen| && rr.primary.peers[i].cfg.addr == server ==>
           Refused(seen[i], rr.primary.peers[i] in tried, since)
    }

    /** Which steps along the ring from `start` lead to servers that are refused. */
    ghost function Refusals(start: nat, seen: seq<PeerState>, tried: set<Peer>, since: int): nat -> bool {
      (k: nat) => points != [] && ServerRefused(points[(start + k) % |points|].peer.cfg.addr, seen, tried, since)
    }

    /** Who takes part in an election: the peers of the server that were acceptable when asked about, and no others. */
    ghost predicate TakesPart(server: string, el: seq<bool>, seen: seq<PeerState>, tried: set<Peer>, since: int, until: int) {
      && |el| == |seen| == |rr.primary.peers|
      && forall i :: 0 <= i < |el| ==>
           var p := rr.primary.peers[i];
           if el[i] then p.cfg.addr == server && p !in tried && !p.cfg.down && Available(seen[i], until)
           else p.cfg.addr != server || Refused(seen[i], p in tried, since)
    }

    /**
      A smooth election among the primaries of one server: exactly those that were
      acceptable when asked about take part, and the winner is committed.
    */
    ghost predicate RingElection(server: string, el: seq<bool>, seen: seq<PeerState>, tried: set<Peer>, since: int, until: int,
                                 now: int, after: seq<PeerState>, r: Peer?) {
      && TakesPart(server, el, seen, tried, since, until)
      && var c := Elect(seen, el, now);
         after == c.states && r == PeerAt(rr.primary.peers, c.winner)
    }

    /** Of the servers from step `from` on, the one now at is the first not refused, and `r` was elected among its peers. */
    ghost predicate FirstServer(from: nat, seen: seq<PeerState>, tried: set<Peer>, since: int, until: int, r: Peer)
      reads this, rr.primary.peers, r
    {
      && points != [] && AllRefused(Refusals(cursor, seen, tried, since), from, tries) && r.cfg.addr == ServerAt(tries)
      && rr.JustTook(r, since, until)
      && exists el ::
           RingElection(ServerAt(tries), el, seen, tried, since, until, TakenAt(r), States(rr.primary.peers), r)
    }

    /**
      What a Pick has come to, given the tries used before it and the primaries as it found
      them: a peer of the first server not refused, or round-robin after really walking
      the ring until the tries were spent.
    */
    ghost predicate Promised(tries0: nat, seen: seq<PeerState>, tried: set<Peer>, since: int, until: int, log: seq<Section>, r: Peer?)
      reads this, rr.primary.peers
      reads if r == null then {} else {r}
    {
      if FastPath() then tries == tries0 && (r != null ==> log != [])
      else if r != null && log == [] then started && tries0 <= tries <= 20 && FirstServer(tries0, seen, tried, since, until, r)
      else started && tries == UsedUp(tries0) && AllRefused(Refusals(cursor, seen, tried, since), tries0, tries)
    }

    /** One primary was sorted rightly: in because it was acceptable when asked about, or out. */
    ghost predicate SiftedAt(p: Peer, eligible: set<Peer>, avail: map<Peer, int>, server: string, since: int, until: int)
      reads p, rr`tried
    {
      if p in eligible then p.cfg.addr == server && rr.Admits(p, since, avail) && avail[p] <= until
      else p.cfg.addr != server || Refused(p.State(), p in rr.tried, since)
    }

    /** The eligibility closure, evaluated; it reads the clock for every peer it gets that far with. */
    method AcceptableOn(server: string, clock: Clock) returns (eligible: set<Peer>, ghost avail: map<Peer, int>)
      requires Distinct(rr.primary.peers)
      modifies clock
      ensures clock.now >= old(clock.now)
      ensures forall p :: p in rr.primary.peers ==> SiftedAt(p, eligible, avail, server, old(clock.now), clock.now)
    {
      eligible, avail := {}, map[];
      for n := 0 to |rr.primary.peers|
        invariant clock.now >= old(clock.now) && forall p :: p in eligible ==> p in rr.primary.peers[..n]
        invariant forall i :: 0 <= i < n ==> SiftedAt(rr.primary.peers[i], eligible, avail, server, old(clock.now), clock.now)
      {
        var peer := rr.primary.peers[n];
        if peer.cfg.addr == server {
          var ok := Acceptable(rr, peer, clock);
          if ok {
            eligible, avail := eligible + {peer}, avail[peer := clock.now];
          }
        }
      }
    }

    lemma SiftedAdmits(eligible: set<Peer>, avail: map<Peer, int>, server: string, since: int, since': int, until: int)
      requires since' <= since
      requires forall p :: p in rr.primary.peers ==> SiftedAt(p, eligible, avail, server, since, until)
      ensures forall p :: p in rr.primary.peers && p in eligible ==>
                rr.Admits(p, since', avail) && p in avail && avail[p] <= until && p.cfg.addr == server
    {
    }

    lemma SiftedParts(eligible: set<Peer>, avail: map<Peer, int>, server: string, since: int, since': int, until: int)
      requires since' <= since
      requires forall p :: p in rr.primary.peers ==> SiftedAt(p, eligible, avail, server, since, until)
      ensures var el, seen := Flags(rr.primary.peers, eligible), States(rr.primary.peers);
              && TakesPart(server, el, seen, rr.tried, since', until)
              && ((forall i :: 0 <= i < |el| ==> !el[i]) ==> ServerRefused(server, seen, rr.tried, since'))
    {
      forall i | 0 <= i < |rr.primary.peers|
        ensures SiftedAt(rr.primary.peers[i], eligible, avail, server, since, until)
      {
      }
    }

    /** Ask which primaries of the server are acceptable; nothing but the clock moves. */
    method AskServer(server: string, clock: Clock) returns (eligible: set<Peer>, ghost avail: map<Peer, int>)
      requires rr.Valid() && rr.Consistent()
      modifies clock
      ensures rr.Valid() && rr.Consistent() && rr.Past() == old(rr.Past()) && clock.now >= old(clock.now)
      ensures States(rr.primary.peers) == old(States(rr.primary.peers))
      ensures forall p :: p in rr.primary.peers ==> SiftedAt(p, eligible, avail, server, old(clock.now), clock.now)
    {
      hide RRPicker.Consistent;
      hide RRPicker.Valid;
      hide RRPicker.Past;
      hide SiftedAt;
      ghost var seen := States(rr.primary.peers);
      rr.OursInPool(rr.primary);
      eligible, avail := AcceptableOn(server, clock);
      assert States(rr.primary.peers) == seen;
      rr.Untouched();
      rr.SameRecord();
    }

    /** The outcome of one step along the ring, at a server: a peer of it taken, or all of them refused. */
    ghost predicate Stepped(server: string, seen: seq<PeerState>, tried: set<Peer>, since: int, until: int, now: int, r: Peer?)
      reads rr`tried, rr.primary.peers
      reads if r == null then {} else {r}
    {
      if r == null then
        rr.tried == tried && States(rr.primary.peers) == seen && ServerRefused(server, seen, tried, since)
      else
        && r in rr.primary.peers && r.cfg.addr == server && !r.cfg.down && r !in tried && rr.tried == tried + {r}
        && rr.JustTook(r, since, until) && TakenAt(r) == now
        && exists el :: RingElection(server, el, seen, tried, since, until, now, States(rr.primary.peers), r)
    }

    /** The election at a server whose acceptable peers are known. */
    method ElectOn(server: string, eligible: set<Peer>, now: int, ghost avail: map<Peer, int>, ghost asked: int, ghost since: int, ghost until: int)
      returns (r: Peer?)
      requires rr.Valid() && rr.Consistent() && !rr.primary.single && since <= now <= asked
      requires forall p :: p in rr.primary.peers ==> SiftedAt(p, eligible, avail, server, asked, until)
      modifies rr`tried, rr`probeChecked, rr.primary.peers
      ensures rr.Consistent() && rr.Acted(old(rr.Past()), rr.Past(), r, rr.Claimed(r))
      ensures Stepped(server, old(States(rr.primary.peers)), old(rr.tried), since, until, now, r)
    {
      hide Elect;
      hide RRPicker.Consistent;
      hide RRPicker.Valid;
      hide RRPicker.Past;
      hide RRPicker.Acted;
      hide SiftedAt;
      hide RRPicker.Admits;
      hide ServerRefused;
      hide Refused;
      hide Available;
      hide Stepped;
      hide TakesPart;
      hide RRPicker.StakeIn;
      hide RRPicker.ProbeIn;
      ghost var seen, tried := States(rr.primary.peers), rr.tried;
      SiftedAdmits(eligible, avail, server, asked, now, until);
      SiftedParts(eligible, avail, server, asked, since, until);
      rr.OursInPool(rr.primary);
      ghost var el := Flags(rr.primary.peers, eligible);
      r := rr.ElectAndCommit(rr.primary.peers, eligible, now, avail);
      IsStep(server, el, seen, tried, since, until, now, r);
    }

    lemma IsStep(server: string, el: seq<bool>, seen: seq<PeerState>, tried: set<Peer>, since: int, until: int, now: int, r: Peer?)
      requires TakesPart(server, el, seen, tried, since, until)
      requires var c := Elect(seen, el, now); States(rr.primary.peers) == c.states && r == PeerAt(rr.primary.peers, c.winner)
      requires if r == null then rr.tried == tried && States(rr.primary.peers) == seen && ServerRefused(server, seen, tried, since)
               else r in rr.primary.peers && r.cfg.addr == server && !r.cfg.down && r !in tried && rr.tried == tried + {r}
                    && rr.JustTook(r, since, until) && TakenAt(r) == now
      ensures Stepped(server, seen, tried, since, until, now, r)
    {
      hide Elect;
      hide TakesPart;
      assert RingElection(server, el, seen, tried, since, until, now, States(rr.primary.peers), r);
    }

    /** One step along the ring. */
    method TryServer(server: string, now: int, clock: Clock, ghost since: int) returns (r: Peer?)
      requires rr.Valid() && rr.Consistent() && !rr.primary.single && since <= now <= clock.now
      modifies rr`tried, rr`probeChecked, rr.primary.peers, clock
      ensures clock.now >= old(clock.now) && rr.Consistent()
      ensures rr.Acted(old(rr.Past()), rr.Past(), r, rr.Claimed(r))
      ensures Stepped(server, old(States(rr.primary.peers)), old(rr.tried), since, clock.now, now, r)
    {
      hide RRPicker.Consistent;
      hide RRPicker.Valid;
      hide RRPicker.Past;
      hide RRPicker.Acted;
      hide SiftedAt;
      hide Stepped;
      var eligible;
      ghost var avail;
      eligible, avail := AskServer(server, clock);
      r := ElectOn(server, eligible, now, avail, old(clock.now), since, clock.now);
    }

    /** What the walk along the ring keeps while it finds nobody. */
    ghost predicate Walked(from: nat, seen: seq<PeerState>, tried: set<Peer>, since: int, was: Journal)
      reads this, rr, rr.Pool()
    {
      && rr.Valid() && rr.Consistent() && (rr.backupPhase ==> tries > MAX_TRIES) && rr.tried == tried && States(rr.primary.peers) == seen
      && rr.Acted(was, rr.Past(), null, NO_STAKE)
      && AllRefused(Refusals(cursor, seen, tried, since), from, tries)
    }

    /** A turn of the loop at a server where nobody was acceptable. */
    method MoveOn(ghost from: nat, ghost seen: seq<PeerState>, ghost tried: set<Peer>, ghost since: int, ghost was: Journal)
      requires Walked(from, seen, tried, since, was) && points != [] && ServerRefused(ServerAt(tries), seen, tried, since)
      modifies this`tries
      ensures Walked(from, seen, tried, since, was) && tries == old(tries) + 1
    {
      hide RRPicker.Consistent;
      hide RRPicker.Valid;
      hide RRPicker.Past;
      hide RRPicker.Acted;
      hide ServerRefused;
      hide AllRefused;
      RefusedOneMore(Refusals(cursor, seen, tried, since), from, tries);
      tries := tries + 1;
      rr.Untouched();
      rr.SameRecord();
    }

    /** A turn of the loop. */
    method WalkOn(now: int, clock: Clock, ghost from: nat, ghost seen: seq<PeerState>, ghost tried: set<Peer>, ghost since: int, ghost was: Journal)
      returns (r: Peer?)
      requires Walked(from, seen, tried, since, was) && points != [] && !rr.primary.single && since <= now <= clock.now
      requires tries <= MAX_TRIES
      modifies this`tries, rr`tried, rr`probeChecked, rr.primary.peers, clock
      ensures clock.now >= old(clock.now)
      ensures r == null ==> Walked(from, seen, tried, since, was) && tries == old(tries) + 1
      ensures r != null ==>
                && rr.Valid() && rr.Consistent() && rr.Acted(was, rr.Past(), r, rr.Claimed(r)) && tries == old(tries)
                && PickEffect(rr.primary, rr.backup, tried, false, rr.tried, false, r)
                && FirstServer(from, seen, tried, since, clock.now, r)
    {
      hide RRPicker.Consistent;
      hide RRPicker.Valid;
      hide RRPicker.Past;
      hide RRPicker.Acted;
      hide ServerRefused;
      hide RingElection;
      hide AllRefused;
      hide FirstServer;
      r := TryServer(ServerAt(tries), now, clock, since);
      rr.StaysValid(r);
      rr.ActedAfter(was, old(rr.Past()), rr.Past(), r, rr.Claimed(r));
      if r == null {
        rr.ActedNowhere(was, rr.Past(), rr.Claimed(r), NO_STAKE);
        MoveOn(from, seen, tried, since, was);
      } else {
        IsFirstServer(from, seen, tried, since, clock.now, now, r);
      }
    }

    lemma IsFirstServer(from: nat, seen: seq<PeerState>, tried: set<Peer>, since: int, until: int, now: int, r: Peer)
      requires points != [] && AllRefused(Refusals(cursor, seen, tried, since), from, tries)
      requires Stepped(ServerAt(tries), seen, tried, since, until, now, r)
      ensures FirstServer(from, seen, tried, since, until, r)
    {
      hide RingElection;
    }

    /** The ring critical section: the first server from the key with an acceptable peer, until the tries are spent. */
    method PickOnRing(clock: Clock) returns (r: Peer?)
      requires rr.Valid() && rr.Consistent() && !FastPath() && (rr.backupPhase ==> tries > MAX_TRIES)
      modifies this`tries, rr`tried, rr`probeChecked, rr.primary.peers, clock
      ensures rr.Valid() && rr.Consistent() && clock.now >= old(clock.now) && tries >= old(tries)
      ensures rr.Acted(old(rr.Past()), rr.Past(), r, rr.Claimed(r))
      ensures PickEffect(rr.primary, rr.backup, old(rr.tried), old(rr.backupPhase), rr.tried, rr.backupPhase, r)
      ensures r == null ==>
                && tries == UsedUp(old(tries)) && rr.tried == old(rr.tried) && States(rr.primary.peers) == old(States(rr.primary.peers))
                && AllRefused(Refusals(cursor, old(States(rr.primary.peers)), old(rr.tried), old(clock.now)), old(tries), tries)
      ensures r != null ==>
                tries <= 20 && FirstServer(old(tries), old(States(rr.primary.peers)), old(rr.tried), old(clock.now), clock.now, r)
    {
      hide RRPicker.Consistent;
      hide RRPicker.Valid;
      hide RRPicker.Past;
      hide RRPicker.Acted;
      hide FirstServer;
      hide PickEffect;
      hide AllRefused;
      ghost var seen, tried, since, was, from := States(rr.primary.peers), rr.tried, clock.now, rr.Past(), tries;
      NoneRefused(Refusals(cursor, seen, tried, since), tries);
      rr.NothingMoved();
      rr.ActedNowhere(was, was, rr.Claimed(null), NO_STAKE);
      var now := clock.Read();
      rr.Untouched();
      rr.SameRecord();
      r := null;
      while tries <= MAX_TRIES
        invariant clock.now >= now >= since && tries >= from && (tries <= 21 || tries == from)
        invariant Walked(from, seen, tried, since, was)
        decreases MAX_TRIES + 1 - tries
      {
        r := WalkOn(now, clock, from, seen, tried, since, was);
        if r != null {
          return;
        }
      }
      r := null;
      rr.ActedNowhere(was, rr.Past(), NO_STAKE, rr.Claimed(r));
      rr.NothingTaken(rr.backupPhase);
    }

    method Pick(clock: Clock) returns (r: Peer?, ghost log: seq<Section>)
      requires Valid() && rr.Consistent()
      modifies this, rr, rr.Pool(), clock
      ensures Valid() && rr.Consistent() && clock.now >= old(clock.now)
      ensures rr.Moved(old(rr.Past()), rr.Past(), r, rr.Claimed(r))
      ensures PickEffect(rr.primary, rr.backup, old(rr.tried), old(rr.backupPhase), rr.tried, rr.backupPhase, r)
      ensures Promised(old(tries), old(States(rr.primary.peers)), old(rr.tried), old(clock.now), clock.now, log, r)
      ensures old(started) ==> started && cursor == old(cursor)
      ensures r != null && log == [] ==> rr.backupPhase == old(rr.backupPhase)
      ensures var groups, w := Consulted(rr.primary, rr.backup, old(rr.backupPhase)),
                               Span(old(clock.now), clock.now, old(rr.Past()), rr.Past());
              if r == null then Exhausted(log, groups, old(rr.tried), w)
              else log == [] || (Found(log, groups, old(rr.tried), w, r) && Delivered(log, r))
    {
      hide AllRefused;
      hide FirstServer;
      hide SectionOutcome;
      hide RRPicker.Consistent;
      hide RRPicker.Moved;
      hide RRPicker.Acted;
      hide RRPicker.Past;
      hide RRPicker.Valid;
      hide PickEffect;
      hide Exhausted;
      hide Found;
      hide Consulted;
      hide OnRing;
      if FastPath() {
        r, log := rr.Pick(clock);
        return;
      }
      Prepare();
      r := PickOnRing(clock);
      rr.ActedIsMoved(old(rr.Past()), rr.Past(), r, rr.Claimed(r));
      if r != null {
        return r, [];
      }
      rr.MovedNowhere(old(rr.Past()), rr.Past(), rr.Claimed(r), NO_STAKE);
      r, log := PickAfter(rr, clock, old(clock.now), old(rr.Past()));
    }

    lemma StartsAtKey()
      requires points != [] && IsStart(points, crc(key), cursor)
      ensures IsStart(Relabel(points, AddrOf), crc(key), cursor) && Relabel(points, AddrOf)[cursor].peer == ServerAt(0)
    {
      RelabelStart(points, AddrOf, crc(key), cursor);
      assert (cursor + 0) % |points| == cursor;
    }

    /** Be ready for the walk; the peers are left alone. */
    method Prepare()
      requires Valid() && rr.Consistent() && !FastPath()
      modifies this`started, this`cursor
      ensures Valid() && rr.Consistent() && started && rr.Past() == old(rr.Past()) && (old(started) ==> cursor == old(cursor))
      ensures States(rr.primary.peers) == old(States(rr.primary.peers))
    {
      hide RRPicker.Consistent;
      hide RRPicker.Past;
      hide RRPicker.Valid;
      hide OnRing;
      ghost var seen := States(rr.primary.peers);
      LookUp();
      assert States(rr.primary.peers) == seen;
      rr.Untouched();
      rr.SameRecord();
    }

    /** Look the key up, once. */
    method LookUp()
      requires OnRing() && points != [] && (started ==> IsStart(points, crc(key), cursor))
      modifies this`started, this`cursor
      ensures started && IsStart(points, crc(key), cursor) && (old(started) ==> cursor == old(cursor))
    {
      RingAscends();
      if !started {
        cursor := FindStart(points, crc(key));
        started := true;
      }
    }
  }

  /**
    Consistent hashing, as requests see it.  Compare two balancers whose servers differ in
    one server's weight, or in its presence: a key is first sent to the same server by
    both, or was first sent to that server by the one where it weighs more.
  */
  lemma OnlyItsKeysMove(heavy: ChashPicker, light: ChashPicker, k: nat, w: int)
    requires heavy.Valid() && light.Valid() && heavy.started && light.started
    requires heavy.crc == light.crc && heavy.key == light.key && heavy.points != [] && light.points != []
    requires k < |heavy.Servers()| && w <= heavy.Servers()[k].weight
    requires || light.Servers() == heavy.Servers()[k := heavy.Servers()[k].(weight := w)]
             || light.Servers() == heavy.Servers()[..k] + heavy.Servers()[k + 1..]
    ensures heavy.ServerAt(0) == light.ServerAt(0) || heavy.ServerAt(0) == heavy.Servers()[k].peer
  {
    hide IsRing;
    hide Relabel;
    hide RRPicker.Valid;
    hide ChashPicker.Servers;
    heavy.StartsAtKey();
    light.StartsAtKey();
    LookupsDifferOnlyAtServer(heavy.crc, heavy.Servers(), light.Servers(), k, w, Relabel(heavy.points, AddrOf),
                              Relabel(light.points, AddrOf), heavy.crc(heavy.key), heavy.cursor, light.cursor);
  }
}
