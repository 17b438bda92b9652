/** Peers and peer groups (balancer.go), the clock, and what requests may expect of each other. */
module Peers {
  import opened Sums
  import opened Smooth
  import opened PeerStates
  import opened Health

  /** A peer's past, and which of its events other requests account for. */
  datatype Trail = Trail(run: seq<Event>, others: set<nat>)

  class Peer {
    const cfg: Config
    var currentWeight: int
    var effectiveWeight: int
    var conns: int
    var fails: int
    var accessed: int
    var checked: int
    var checkedSeq: nat
    ghost var events: seq<Event>   // what pickers have done to the peer so far
    ghost var others: set<nat>     // the positions in `events` at which other requests did it, while a picker waited

    constructor (server: Server)
      ensures cfg == Defaulted(server) && State() == Initial(cfg) && events == [] && others == {}
    {
      cfg := Defaulted(server);
      currentWeight, effectiveWeight := 0, Defaulted(server).weight;
      conns, fails, accessed, checked, checkedSeq := 0, 0, 0, 0, 0;
      events, others := [], {};
    }

    function State(): PeerState
      reads this
    {
      PeerState(cfg, currentWeight, effectiveWeight, conns, fails, accessed, checked, checkedSeq)
    }

    ghost function Past(): Trail
      reads this`events, this`others
    {
      Trail(events, others)
    }

    /** The health protocol's account of the peer after the given events. */
    ghost function Account(single: bool, run: seq<Event>): Shared {
      After(Begin(cfg, single), run)
    }

    /**
      The peer's past is a run of the health protocol, and its fields are where that run
      leads.  So everything proved of all runs holds of the peer.
    */
    ghost predicate Lawful(single: bool)
      reads this
    {
      Feasible(Begin(cfg, single), events) && Account(single, events).peer == State()
    }

    method SetChecked(t: int)
      modifies this`checked, this`checkedSeq
      ensures checked == t && checkedSeq == old(checkedSeq) + 1
    {
      checked := t;
      checkedSeq := checkedSeq + 1;
    }

    /** Enter an event into the peer's past, its fields having been changed accordingly. */
    ghost method Note(single: bool, e: Event)
      requires Feasible(Begin(cfg, single), events) && Enabled(Account(single, events), e)
      requires Next(Account(single, events), e).peer == State()
      modifies this`events
      ensures events == old(events) + [e] && Lawful(single)
      ensures Account(single, events) == Next(old(Account(single, events)), e)
    {
      OneMore(Begin(cfg, single), events, e);
      events := events + [e];
    }
  }

  /** In every state a peer gets into: connections counted and capped, weight in range, no failure forgotten. */
  lemma LawfulIsSafe(p: Peer, single: bool)
    requires p.Lawful(single) && p.cfg.weight >= 1 && p.cfg.failTimeout >= 0
    ensures p.conns == |p.Account(single, p.events).holders|
    ensures p.cfg.maxConns > 0 ==> p.conns <= p.cfg.maxConns
    ensures 0 <= p.effectiveWeight <= p.cfg.weight
    ensures p.accessed <= p.checked
    ensures !single ==> p.accessed == LastFailure(p.events, 0)
  {
    ReachableInvariant(Begin(p.cfg, single), p.events);
    ConfigFixed(Begin(p.cfg, single), p.events);
    if !single {
      AccessedIsLastFailure(Begin(p.cfg, single), p.events);
    }
  }

  lemma LawfulWeight(p: Peer, single: bool)
    requires p.Lawful(single) && p.cfg.weight >= 1
    ensures 0 <= p.effectiveWeight <= p.cfg.weight
  {
    RunKeepsWeight(Begin(p.cfg, single), p.events);
    ConfigFixed(Begin(p.cfg, single), p.events);
  }

  ghost function States(peers: seq<Peer>): (s: seq<PeerState>)
    reads peers
    ensures |s| == |peers| && forall i :: 0 <= i < |s| ==> s[i] == peers[i].State()
  {
    seq(|peers|, i requires 0 <= i < |peers| reads peers => peers[i].State())
  }

  ghost function SlotsOf(s: seq<PeerState>): (r: seq<Slot>)
    ensures |r| == |s|
  {
    seq(|s|, i requires 0 <= i < |s| => s[i].ToSlot())
  }

  ghost function Runs(peers: seq<Peer>): (r: seq<seq<Event>>)
    reads peers
    ensures |r| == |peers| && forall i :: 0 <= i < |r| ==> r[i] == peers[i].events
  {
    seq(|peers|, i requires 0 <= i < |peers| reads peers => peers[i].events)
  }

  function WeightsOf(peers: seq<Peer>): seq<int> {
    seq(|peers|, i requires 0 <= i < |peers| => peers[i].cfg.weight)
  }

  /** Immutable once built, so a value; the peers it lists are shared objects. */
  datatype PeerGroup = PeerGroup(peers: seq<Peer>, totalWeight: int, single: bool)

  /** What `BuildGroups` guarantees of a group. */
  ghost predicate WellFormed(g: PeerGroup) {
    && Distinct(g.peers)
    && (forall p :: p in g.peers ==> p.cfg.weight >= 1)
    && g.totalWeight == Sum(WeightsOf(g.peers))
    && (g.single ==> |g.peers| == 1)
  }

  lemma PopulatedWeighs(g: PeerGroup)
    requires WellFormed(g) && g.peers != []
    ensures g.totalWeight >= 1
  {
    SumAtLeast(WeightsOf(g.peers), 0);
  }

  /** The configured servers of one group, in order, defaulted; nil entries are skipped. */
  function Members(servers: seq<Option<Server>>, backup: bool): seq<Config> {
    if servers == [] then []
    else
      var rest, s := Members(servers[..|servers| - 1], backup), servers[|servers| - 1];
      if s.Some? && s.value.backup == backup then rest + [Defaulted(s.value)] else rest
  }

  /** The members stand for exactly the servers of their kind, each once and in order: `at` tells which. */
  lemma {:induction false} MembersAreTheServers(servers: seq<Option<Server>>, backup: bool) returns (at: seq<nat>)
    ensures |at| == |Members(servers, backup)| && forall i, j :: 0 <= i < j < |at| ==> at[i] < at[j]
    ensures forall i :: 0 <= i < |at| ==>
              && at[i] < |servers| && servers[at[i]].Some? && servers[at[i]].value.backup == backup
              && Members(servers, backup)[i] == Defaulted(servers[at[i]].value)
    ensures forall n :: 0 <= n < |servers| && servers[n].Some? && servers[n].value.backup == backup ==> n in at
  {
    at := [];
    if servers != [] {
      var last := |servers| - 1;
      at := MembersAreTheServers(servers[..last], backup);
      if servers[last].Some? && servers[last].value.backup == backup {
        at := at + [last];
        assert at[|at| - 1] == last;
      }
    }
  }

  ghost predicate Initialised(peers: seq<Peer>, cfgs: seq<Config>)
    reads peers
  {
    && |peers| == |cfgs|
    && (forall i :: 0 <= i < |peers| ==> peers[i].cfg == cfgs[i])
    && (forall p :: p in peers ==> p.State() == Initial(p.cfg) && p.events == [])
  }

  /** A group under construction: its peers are the listed servers, freshly initialised, and its weight is theirs. */
  ghost predicate Building(g: PeerGroup, cfgs: seq<Config>, backup: bool)
    reads g.peers
  {
    && Distinct(g.peers) && Initialised(g.peers, cfgs) && !g.single
    && (forall p :: p in g.peers ==> p.cfg.backup == backup && p.cfg.weight >= 1)
    && g.totalWeight == Sum(WeightsOf(g.peers))
  }

  function Append(g: PeerGroup, p: Peer): PeerGroup {
    g.(peers := g.peers + [p], totalWeight := g.totalWeight + p.cfg.weight)
  }

  lemma AppendBuilds(g: PeerGroup, cfgs: seq<Config>, backup: bool, p: Peer)
    requires Building(g, cfgs, backup) && p !in g.peers
    requires p.State() == Initial(p.cfg) && p.events == [] && p.cfg.backup == backup && p.cfg.weight >= 1
    ensures Building(Append(g, p), cfgs + [p.cfg], backup)
  {
    assert WeightsOf(g.peers + [p])[..|g.peers|] == WeightsOf(g.peers);
  }

  method BuildGroups(servers: seq<Option<Server>>) returns (primary: PeerGroup, backup: Option<PeerGroup>)
    ensures WellFormed(primary) && Initialised(primary.peers, Members(servers, false))
    ensures backup.None? <==> Members(servers, true) == []
    ensures backup.Some? ==>
              && WellFormed(backup.value) && Initialised(backup.value.peers, Members(servers, true))
              && !backup.value.single
    ensures primary.single <==> |primary.peers| == 1 && backup.None?
    ensures forall p :: p in primary.peers ==> !p.cfg.backup
    ensures backup.Some? ==> forall p :: p in backup.value.peers ==> p.cfg.backup
    ensures fresh(primary.peers) && (backup.Some? ==> fresh(backup.value.peers))
  {
    var ps, bs := PeerGroup([], 0, false), PeerGroup([], 0, false);
    for n := 0 to |servers|
      invariant Building(ps, Members(servers[..n], false), false) && fresh(ps.peers)
      invariant Building(bs, Members(servers[..n], true), true) && fresh(bs.peers)
    {
      hide Building;
      assert servers[..n + 1][..n] == servers[..n];
      if servers[n].Some? {
        var p := new Peer(servers[n].value);
        if p.cfg.backup {
          AppendBuilds(bs, Members(servers[..n], true), true, p);
          bs := Append(bs, p);
        } else {
          AppendBuilds(ps, Members(servers[..n], false), false, p);
          ps := Append(ps, p);
        }
      }
    }
    assert servers[..|servers|] == servers;
    if |bs.peers| == 0 {
      primary, backup := ps.(single := |ps.peers| == 1), None;
    } else {
      primary, backup := ps, Some(bs);
    }
  }

  /** A clock that never runs backwards; nothing else is known about its readings. */
  class Clock {
    var now: int

    constructor () {}

    method Read() returns (t: int)
      modifies this
      ensures t == now >= old(now)
    {
      var elapsed :| elapsed >= 0;
      now := now + elapsed;
      t := now;
    }
  }

  /**
    Other requests at work between two critical sections of picker `id`.  All a caller
    knows is that they go by the health protocol, as this picker does: anything may have
    been added to the past of the given peers that is lawful and not the caller's own.
  */
  method OtherRequests(ghost peers: set<Peer>, ghost single: bool, ghost id: nat)
    requires forall p :: p in peers ==> p.Lawful(single)
    modifies peers
    ensures forall p :: p in peers ==>
              && p.Lawful(single) && old(p.events) <= p.events && Foreign(p.events[|old(p.events)|..], id)
              && p.others == old(p.others) + Between(|old(p.events)|, |p.events|)
  {
  }

  ghost function Between(from: nat, to: nat): (s: set<nat>)
    ensures forall k :: k in s <==> from <= k < to
  {
    if from >= to then {} else Between(from, to - 1) + {to - 1}
  }
}
