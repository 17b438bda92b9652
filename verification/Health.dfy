/**
  The peer-health protocol of roundrobin.go: `commitPeer` and `done` run by any
  number of pickers against one shared peer, one critical section at a time.
*/
module Health {
  import opened PeerStates
  import opened Smooth

  /** The timestamp a picker replaced, and the peer's version right after it did. */
  datatype Probe = Probe(prior: int, version: nat)

  datatype Outcome = Failed | Succeeded | Neutral

  // ---------- The two critical sections, on values ----------

  /** Selection starts a recovery probe when the last one is older than the fail timeout. */
  predicate StartsProbe(p: PeerState, now: int) {
    now - p.checked > p.cfg.failTimeout
  }

  function SetChecked(p: PeerState, t: int): PeerState {
    p.(checked := t, checkedSeq := p.checkedSeq + 1)
  }

  function Commit(p: PeerState, now: int): PeerState {
    var q := if StartsProbe(p, now) then SetChecked(p, now) else p;
    q.(conns := q.conns + 1)
  }

  function ProbeOf(p: PeerState): Probe {
    Probe(p.checked, p.checkedSeq + 1)
  }

  function Settle(p: PeerState, outcome: Outcome, probe: Option<Probe>, now: int): PeerState {
    var q := match outcome
      case Neutral =>
        if probe.Some? && p.checkedSeq == probe.value.version then SetChecked(p, probe.value.prior) else p
      case Failed =>
        SetChecked(p, now).(fails := p.fails + 1, accessed := now, effectiveWeight := Degrade(p.ToSlot(), p.cfg.maxFails).effective)
      case Succeeded =>
        if p.accessed < p.checked then p.(fails := 0) else p;
    q.(conns := q.conns - 1)
  }

  /** Release on nginx's single-peer fast path. */
  function SettleSingle(p: PeerState): PeerState {
    p.(fails := 0, conns := p.conns - 1)
  }

  // ---------- One peer and all its pickers ----------

  /** `tried`, `holders`, `probes` and `outcomes` (what was reported on release) are keyed by picker. */
  datatype Shared = Shared(
    peer: PeerState, single: bool, tried: set<nat>, holders: set<nat>, probes: map<nat, Probe>, outcomes: map<nat, Outcome>)

  datatype Event =
    | Weighed(current: int, effective: int)
      // a smooth pass went over the peer
    | Selected(id: nat, now: int, avail: int)
      // picker `id` took the peer: `now` is the instant it committed with, `avail` the one it checked availability at
    | Released(id: nat, outcome: Outcome, now: int)

  ghost predicate Enabled(s: Shared, e: Event) {
    match e
    case Weighed(_, effective) =>
      !s.single && s.peer.effectiveWeight <= effective <= s.peer.cfg.weight
    case Selected(id, now, avail) =>
      && id !in s.tried && !s.peer.cfg.down && !Full(s.peer)
      && (s.single || (now <= avail && !Quarantined(s.peer, avail)))
    case Released(id, _, _) =>
      id in s.holders
  }

  function ProbeFor(s: Shared, id: nat): Option<Probe> {
    if id in s.probes then Some(s.probes[id]) else None
  }

  ghost function Next(s: Shared, e: Event): Shared {
    match e
    case Weighed(current, effective) =>
      s.(peer := s.peer.(currentWeight := current, effectiveWeight := effective))
    case Selected(id, now, _) =>
      var t := s.(tried := s.tried + {id}, holders := s.holders + {id});
      if s.single then t.(peer := s.peer.(conns := s.peer.conns + 1))
      else t.(peer := Commit(s.peer, now),
              probes := if StartsProbe(s.peer, now) then s.probes[id := ProbeOf(s.peer)] else s.probes)
    case Released(id, outcome, now) =>
      var t := s.(holders := s.holders - {id}, outcomes := s.outcomes[id := outcome]);
      if s.single then t.(peer := SettleSingle(s.peer))
      else t.(peer := Settle(s.peer, outcome, ProbeFor(s, id), now),
              probes := if outcome.Neutral? then s.probes - {id} else s.probes)
  }

  ghost predicate Feasible(s: Shared, es: seq<Event>)
    decreases |es|
  {
    es == [] || (Enabled(s, es[0]) && Feasible(Next(s, es[0]), es[1..]))
  }

  ghost function After(s: Shared, es: seq<Event>): Shared
    decreases |es|
  {
    if es == [] then s else After(Next(s, es[0]), es[1..])
  }

  /** A peer nobody has used yet. */
  function Begin(cfg: Config, single: bool): Shared {
    Shared(Initial(cfg), single, {}, {}, map[], map[])
  }

  ghost predicate Start(s: Shared) {
    s == Begin(s.peer.cfg, s.single) && s.peer.cfg.weight >= 1 && s.peer.cfg.failTimeout >= 0
  }

  // ---------- One picker's share in a peer's history ----------

  /** What a picker has had to do with a peer: tried it, holds it, started a probe on it, reported on it. */
  datatype Stake = Stake(tried: bool, holds: bool, probe: Option<Probe>, outcome: Option<Outcome>)

  const NO_STAKE: Stake := Stake(false, false, None, None)

  function StakeOf(s: Shared, id: nat): Stake {
    Stake(id in s.tried, id in s.holders, ProbeFor(s, id), if id in s.outcomes then Some(s.outcomes[id]) else None)
  }

  /** None of the events is picker `id`'s. */
  ghost predicate Foreign(es: seq<Event>, id: nat) {
    forall k :: 0 <= k < |es| ==> es[k].Weighed? || es[k].id != id
  }

  lemma {:induction false} OneMore(s: Shared, es: seq<Event>, e: Event)
    ensures After(s, es + [e]) == Next(After(s, es), e)
    ensures Feasible(s, es + [e]) <==> Feasible(s, es) && Enabled(After(s, es), e)
    decreases |es|
  {
    hide Next;
    hide Enabled;
    if es == [] {
      assert [e][1..] == [] && es + [e] == [e];
      assert After(Next(s, e), []) == Next(s, e);
    } else {
      OneMore(Next(s, es[0]), es[1..], e);
      assert (es + [e])[1..] == es[1..] + [e];
    }
  }

  lemma ForeignStep(s: Shared, e: Event, id: nat)
    requires e.Weighed? || e.id != id
    ensures StakeOf(Next(s, e), id) == StakeOf(s, id)
  {
  }

  /** Other pickers' events, and passes, do not touch a picker's stake. */
  lemma {:induction false} ForeignKeepsStake(s: Shared, es: seq<Event>, more: seq<Event>, id: nat)
    requires Foreign(more, id)
    ensures StakeOf(After(s, es + more), id) == StakeOf(After(s, es), id)
    decreases |more|
  {
    hide Next;
    hide After;
    if more == [] {
      assert es + more == es;
    } else {
      var front, last := more[..|more| - 1], more[|more| - 1];
      ForeignKeepsStake(s, es, front, id);
      OneMore(s, es + front, last);
      ForeignStep(After(s, es + front), last, id);
      assert es + more == es + front + [last];
    }
  }

  /** The effective weight is in range after every run, whatever the timeouts are. */
  lemma {:induction false} RunKeepsWeight(s: Shared, es: seq<Event>)
    requires Feasible(s, es) && s.peer.cfg.weight >= 1 && 0 <= s.peer.effectiveWeight <= s.peer.cfg.weight
    ensures 0 <= After(s, es).peer.effectiveWeight <= After(s, es).peer.cfg.weight
    decreases |es|
  {
    if es != [] {
      DegradeInRange(s.peer.ToSlot(), s.peer.cfg.maxFails);
      RunKeepsWeight(Next(s, es[0]), es[1..]);
    }
  }

  /** The instant an event carries; a pass has none of its own. */
  ghost predicate NotBefore(e: Event, t: int) {
    match e
    case Weighed(_, _) => true
    case Selected(_, now, _) => now >= t
    case Released(_, _, now) => now >= t
  }

  ghost predicate AllNotBefore(es: seq<Event>, t: int) {
    forall k :: 0 <= k < |es| ==> NotBefore(es[k], t)
  }

  /** The probe is the latest write to `checked`, so its owner may still roll it back. */
  ghost predicate Live(s: Shared, id: nat) {
    id in s.probes && s.probes[id].version == s.peer.checkedSeq
  }

  // ---------- The protocol in the peer's own fields ----------

  /**
    Exactly when a picker may select a peer: it has not tried it, the peer is up and below
    its cap, and outside the single-peer group it is below its failure limit, has none, or
    has rested for longer than the fail timeout.
  */
  lemma SelectableExactly(s: Shared, id: nat, now: int, avail: int)
    requires now <= avail
    ensures Enabled(s, Selected(id, now, avail)) <==>
            var p := s.peer;
            && id !in s.tried && !p.cfg.down && (p.cfg.maxConns <= 0 || p.conns < p.cfg.maxConns)
            && (s.single || p.cfg.maxFails <= 0 || p.fails < p.cfg.maxFails || avail - p.checked > p.cfg.failTimeout)
  {
  }

  /** A peer below its failure limit, or without one, is selectable at every instant. */
  lemma SelectableBelowLimit(s: Shared, id: nat, now: int, avail: int)
    requires now <= avail && id !in s.tried && !s.peer.cfg.down && (s.peer.cfg.maxConns <= 0 || s.peer.conns < s.peer.cfg.maxConns)
    requires s.peer.fails < s.peer.cfg.maxFails || s.peer.cfg.maxFails <= 0
    ensures Enabled(s, Selected(id, now, avail))
  {
    SelectableExactly(s, id, now, avail);
  }

  /** Failure reports only, with neither passes nor other releases between. */
  ghost predicate FailuresOnly(es: seq<Event>) {
    forall k :: 0 <= k < |es| ==> es[k].Released? && es[k].outcome.Failed?
  }

  /** What `n` failure reports leave of an effective weight. */
  function Left(effective: int, weight: int, maxFails: int, n: nat): int {
    if maxFails <= 0 then effective
    else if effective <= n * (weight / maxFails) then 0 else effective - n * (weight / maxFails)
  }

  /** One report more. */
  lemma LeftOneMore(effective: int, weight: int, maxFails: int, n: nat)
    requires effective >= 0 && weight >= 1
    ensures 0 <= Left(effective, weight, maxFails, 1) && Left(effective, weight, maxFails, n + 1) == Left(Left(effective, weight, maxFails, 1), weight, maxFails, n)
  {
    if maxFails > 0 {
      var d := weight / maxFails;
      assert (n + 1) * d == n * d + d && n * d >= 0;
    }
  }

  lemma FailureInFields(p: PeerState, now: int)
    requires p.effectiveWeight >= 0
    ensures var q := Settle(p, Failed, None, now);
            && q.effectiveWeight == Left(p.effectiveWeight, p.cfg.weight, p.cfg.maxFails, 1)
            && q.fails == p.fails + 1 && q.conns == p.conns - 1 && q.cfg == p.cfg && q.currentWeight == p.currentWeight
            && q.accessed == q.checked == now
  {
  }

  /**
    Failure reports add up: each costs the peer its weight divided by its failure limit,
    down to nothing; without a limit they cost it no weight.  They are counted, and the
    last one's instant is on both timestamps.
  */
  lemma {:induction false} FailuresAddUp(s: Shared, es: seq<Event>)
    requires !s.single && FailuresOnly(es) && s.peer.effectiveWeight >= 0 && s.peer.cfg.weight >= 1
    ensures var p, q, n := s.peer, After(s, es).peer, |es|;
            && q.effectiveWeight == Left(p.effectiveWeight, p.cfg.weight, p.cfg.maxFails, n)
            && q.fails == p.fails + n && q.conns == p.conns - n && q.cfg == p.cfg && q.currentWeight == p.currentWeight
            && (n > 0 ==> q.accessed == q.checked == es[n - 1].now)
    decreases |es|
  {
    hide Settle;
    hide Left;
    if es == [] {
      NothingLost(s.peer.effectiveWeight, s.peer.cfg.weight, s.peer.cfg.maxFails);
    } else {
      var t, rest := Next(s, es[0]), es[1..];
      assert es[0].Released? && forall k :: 0 <= k < |rest| ==> rest[k] == es[k + 1];
      SettleFailedAnyProbe(s.peer, ProbeFor(s, es[0].id), es[0].now);
      FailureInFields(s.peer, es[0].now);
      LeftOneMore(s.peer.effectiveWeight, s.peer.cfg.weight, s.peer.cfg.maxFails, |rest|);
      FailuresAddUp(t, rest);
    }
  }

  lemma NothingLost(effective: int, weight: int, maxFails: int)
    requires effective >= 0
    ensures Left(effective, weight, maxFails, 0) == effective
  {
  }

  lemma SettleFailedAnyProbe(p: PeerState, probe: Option<Probe>, now: int)
    ensures Settle(p, Failed, probe, now) == Settle(p, Failed, None, now)
  {
  }

  /** A limit that divides the weight: as many failures in a row as the limit take a full weight to exactly nothing, and no fewer. */
  lemma LimitOfFailuresSilences(s: Shared, es: seq<Event>, share: int)
    requires !s.single && FailuresOnly(es) && s.peer.effectiveWeight == s.peer.cfg.weight >= 1
    requires s.peer.cfg.maxFails > 0 && s.peer.cfg.weight == share * s.peer.cfg.maxFails && |es| <= s.peer.cfg.maxFails
    ensures After(s, es).peer.effectiveWeight == s.peer.cfg.weight - |es| * share
    ensures After(s, es).peer.effectiveWeight == 0 <==> |es| == s.peer.cfg.maxFails
  {
    hide After;
    FailuresAddUp(s, es);
    ShareLeft(share, s.peer.cfg.maxFails, |es|);
  }

  lemma ShareLeft(share: int, m: int, n: nat)
    requires m > 0 && share * m >= 1 && n <= m
    ensures Left(share * m, share * m, m, n) == share * m - n * share
    ensures share * m - n * share == 0 <==> n == m
  {
    DivideExactly(share, m);
    TimesGrows(n, m, share);
    assert m * share == share * m;
  }

  lemma TimesGrows(a: int, b: int, k: int)
    ensures k > 0 && a < b ==> (a + 1) * k <= b * k && (a + 1) * k == a * k + k
  {
    if k > 0 && a < b {
      assert (b - a - 1) * k >= 0;
    }
  }

  lemma DivideExactly(share: int, m: int)
    requires m > 0 && share * m >= 1
    ensures share >= 1 && (share * m) / m == share
  {
    var q := (share * m) / m;
    assert q * m <= share * m < q * m + m;
    TimesGrows(q, share, m);
    TimesGrows(share, q, m);
    TimesGrows(share, 1, m);
  }

  // ---------- What every interleaving keeps ----------

  ghost predicate Invariant(s: Shared) {
    && s.peer.cfg.weight >= 1 && s.peer.cfg.failTimeout >= 0
    && s.holders <= s.tried && s.probes.Keys <= s.tried
    && s.peer.conns == |s.holders|
    && (s.peer.cfg.maxConns > 0 ==> s.peer.conns <= s.peer.cfg.maxConns)
    && 0 <= s.peer.effectiveWeight <= s.peer.cfg.weight
    && s.peer.fails >= 0
    && s.peer.accessed <= s.peer.checked
    && (forall id :: id in s.probes ==> s.probes[id].version <= s.peer.checkedSeq)
    && (forall id :: Live(s, id) ==> s.peer.accessed <= s.probes[id].prior <= s.peer.checked)
  }

  lemma StepKeepsVersions(s: Shared, e: Event)
    requires Invariant(s) && Enabled(s, e)
    ensures var t := Next(s, e);
            && t.peer.accessed <= t.peer.checked
            && (forall id :: id in t.probes ==> t.probes[id].version <= t.peer.checkedSeq)
  {
    match e
    case Weighed(_, _) =>
    case Selected(_, _, _) =>
      hide Live;
    case Released(id, outcome, now) =>
      ReleaseKeepsOrder(s, id, outcome, now);
      VersionsKept(s, id, outcome, now);
      hide Live;
  }

  lemma ReleaseKeepsOrder(s: Shared, id: nat, outcome: Outcome, now: int)
    requires Invariant(s)
    ensures var t := Next(s, Released(id, outcome, now)); t.peer.accessed <= t.peer.checked
  {
    if outcome.Neutral? && id in s.probes && s.probes[id].version == s.peer.checkedSeq {
      assert Live(s, id);
    }
    hide Live;
  }

  lemma VersionsKept(s: Shared, id: nat, outcome: Outcome, now: int)
    requires forall i :: i in s.probes ==> s.probes[i].version <= s.peer.checkedSeq
    ensures var t := Next(s, Released(id, outcome, now)); forall i :: i in t.probes ==> t.probes[i].version <= t.peer.checkedSeq
  {
  }

  /** A write to `checked` retires every probe but the writer's own. */
  lemma StepKeepsProbes(s: Shared, e: Event)
    requires Invariant(s) && Enabled(s, e)
    ensures var t := Next(s, e);
            forall id :: Live(t, id) ==> t.peer.accessed <= t.probes[id].prior <= t.peer.checked
  {
    var t := Next(s, e);
    forall id | Live(t, id)
      ensures t.peer.accessed <= t.probes[id].prior <= t.peer.checked
    {
      OldOrNewProbe(s, e, id);
    }
  }

  /** A live probe was live before, with `checked` and `accessed` untouched, or was started just now. */
  lemma OldOrNewProbe(s: Shared, e: Event, id: nat)
    requires Invariant(s) && Enabled(s, e) && Live(Next(s, e), id)
    ensures var t := Next(s, e);
            || (Live(s, id) && t.probes[id] == s.probes[id]
                && t.peer.checked == s.peer.checked && t.peer.accessed == s.peer.accessed)
            || (e.Selected? && e.id == id && t.probes[id].prior == s.peer.checked
                && t.peer.checked == e.now > s.peer.checked && t.peer.accessed == s.peer.accessed)
  {
  }

  lemma CommitFrame(p: PeerState, now: int)
    ensures var q := Commit(p, now);
            q.conns == p.conns + 1 && q.cfg == p.cfg && q.effectiveWeight == p.effectiveWeight && q.fails == p.fails
  {
  }

  lemma SettleFrame(p: PeerState, outcome: Outcome, probe: Option<Probe>, now: int)
    requires 1 <= p.cfg.weight && 0 <= p.effectiveWeight <= p.cfg.weight && p.fails >= 0
    ensures var q := Settle(p, outcome, probe, now);
            q.conns == p.conns - 1 && q.cfg == p.cfg && 0 <= q.effectiveWeight <= p.cfg.weight && q.fails >= 0
  {
    DegradeInRange(p.ToSlot(), p.cfg.maxFails);
  }

  /** The connection count follows the holders, and the cap holds. */
  lemma StepKeepsCount(s: Shared, e: Event)
    requires Invariant(s) && Enabled(s, e)
    ensures var t := Next(s, e);
            && t.peer.cfg == s.peer.cfg
            && t.holders <= t.tried && t.probes.Keys <= t.tried
            && t.peer.conns == |t.holders|
            && (t.peer.cfg.maxConns > 0 ==> t.peer.conns <= t.peer.cfg.maxConns)
            && 0 <= t.peer.effectiveWeight <= t.peer.cfg.weight
            && t.peer.fails >= 0
  {
    hide Live;
    hide Commit;
    hide Settle;
    match e
    case Weighed(_, _) =>
    case Selected(_, now, _) => CommitFrame(s.peer, now);
    case Released(id, outcome, now) => SettleFrame(s.peer, outcome, ProbeFor(s, id), now);
  }

  lemma StepKeepsInvariant(s: Shared, e: Event)
    requires Invariant(s) && Enabled(s, e)
    ensures Invariant(Next(s, e))
  {
    hide Live;
    hide Next;
    StepKeepsCount(s, e);
    StepKeepsVersions(s, e);
    StepKeepsProbes(s, e);
  }

  /**
    Every interleaving of picks, passes, failures, successes and neutral releases, by
    any number of pickers and with any clock, keeps the invariant: `conns` counts the
    outstanding selections and respects the cap, the effective weight stays in range,
    and `checked` never drops below the last recorded failure.
  */
  lemma {:induction false} RunKeepsInvariant(s: Shared, es: seq<Event>)
    requires Invariant(s) && Feasible(s, es)
    ensures Invariant(After(s, es))
    decreases |es|
  {
    if es != [] {
      StepKeepsInvariant(s, es[0]);
      RunKeepsInvariant(Next(s, es[0]), es[1..]);
    }
  }

  lemma ReachableInvariant(s: Shared, es: seq<Event>)
    requires Start(s) && Feasible(s, es)
    ensures var r := After(s, es);
            && 0 <= r.peer.conns == |r.holders|
            && (r.peer.cfg.maxConns > 0 ==> r.peer.conns <= r.peer.cfg.maxConns)
            && 0 <= r.peer.effectiveWeight <= r.peer.cfg.weight
            && r.peer.accessed <= r.peer.checked
  {
    RunKeepsInvariant(s, es);
  }

  // ---------- A failure is never erased ----------

  /** The instant of the last failure report in a run. */
  ghost function LastFailure(es: seq<Event>, default: int): int {
    if es == [] then default
    else if es[|es| - 1].Released? && es[|es| - 1].outcome.Failed? then es[|es| - 1].now
    else LastFailure(es[..|es| - 1], default)
  }

  lemma {:induction false} LastFailureFront(es: seq<Event>, default: int)
    requires es != []
    ensures LastFailure(es, default) ==
            LastFailure(es[1..], if es[0].Released? && es[0].outcome.Failed? then es[0].now else default)
  {
    var last := |es| - 1;
    if last > 0 && !(es[last].Released? && es[last].outcome.Failed?) {
      LastFailureFront(es[..last], default);
      assert es[1..][..last - 1] == es[..last][1..];
    }
  }

  lemma {:induction false} AccessedIsLastFailure(s: Shared, es: seq<Event>)
    requires !s.single && Feasible(s, es)
    ensures After(s, es).peer.accessed == LastFailure(es, s.peer.accessed)
    decreases |es|
  {
    if es != [] {
      AccessedIsLastFailure(Next(s, es[0]), es[1..]);
      LastFailureFront(es, s.peer.accessed);
    }
  }

  lemma {:induction false} ConfigFixed(s: Shared, es: seq<Event>)
    ensures After(s, es).peer.cfg == s.peer.cfg && After(s, es).single == s.single
    decreases |es|
  {
    if es != [] {
      ConfigFixed(Next(s, es[0]), es[1..]);
    }
  }

  /** A peer at its failure limit can be selected only once the fail timeout has passed since the last failure report. */
  lemma SelectionOutwaitsLastFailure(s: Shared, es: seq<Event>, id: nat, now: int, avail: int)
    requires Start(s) && !s.single && Feasible(s, es)
    requires Enabled(After(s, es), Selected(id, now, avail))
    requires After(s, es).peer.fails >= s.peer.cfg.maxFails > 0
    ensures avail - LastFailure(es, 0) > s.peer.cfg.failTimeout
  {
    RunKeepsInvariant(s, es);
    AccessedIsLastFailure(s, es);
    ConfigFixed(s, es);
  }

  /** The state a failure report leaves: nobody may roll `checked` back, and a success proves nothing. */
  ghost predicate FailureStands(s: Shared) {
    && !s.single && s.peer.accessed == s.peer.checked
    && (forall id :: id in s.probes ==> s.probes[id].version < s.peer.checkedSeq)
  }

  lemma FailureReportStands(s: Shared, id: nat, now: int)
    requires Invariant(s) && !s.single && Enabled(s, Released(id, Failed, now))
    ensures var t := Next(s, Released(id, Failed, now));
            FailureStands(t) && t.peer.accessed == now && t.peer.fails == s.peer.fails + 1
  {
  }

  /** No selection along the run advances `checked`. */
  ghost predicate NoProbeStarts(s: Shared, es: seq<Event>)
    decreases |es|
  {
    es == [] || (!(es[0].Selected? && StartsProbe(s.peer, es[0].now)) && NoProbeStarts(Next(s, es[0]), es[1..]))
  }

  /** In-flight successes and neutral releases cannot clear a failure until a later selection has advanced `checked`. */
  lemma {:induction false} StaleReleasesKeepFailure(s: Shared, es: seq<Event>)
    requires FailureStands(s) && Feasible(s, es) && NoProbeStarts(s, es)
    ensures FailureStands(After(s, es)) && After(s, es).peer.fails >= s.peer.fails
    decreases |es|
  {
    if es != [] {
      StaleReleasesKeepFailure(Next(s, es[0]), es[1..]);
    }
  }

  /**
    Quarantine holds against every interleaving: once a failure report at `tf` has
    put the peer at its limit, no picker selects it at any instant up to
    `tf + failTimeout`, whatever the others report meanwhile.
  */
  lemma {:induction false} NoSelectionDuringQuarantine(s: Shared, es: seq<Event>, tf: int)
    requires FailureStands(s) && Feasible(s, es) && AllNotBefore(es, tf)
    requires s.peer.accessed >= tf && s.peer.fails >= s.peer.cfg.maxFails > 0
    requires forall k :: 0 <= k < |es| && es[k].Selected? ==> es[k].avail <= tf + s.peer.cfg.failTimeout
    ensures forall k :: 0 <= k < |es| ==> !es[k].Selected?
    decreases |es|
  {
    if es != [] {
      assert NotBefore(es[0], tf);
      NoSelectionDuringQuarantine(Next(s, es[0]), es[1..], tf);
      forall k | 0 <= k < |es| ensures !es[k].Selected? {
        assert k > 0 ==> es[k] == es[1..][k - 1];
      }
    }
  }

  // ---------- Neutral release ----------

  /** Nothing that happens can lower the version of `checked`. */
  lemma {:induction false} VersionGrows(s: Shared, es: seq<Event>)
    ensures After(s, es).peer.checkedSeq >= s.peer.checkedSeq
    decreases |es|
  {
    if es != [] {
      VersionGrows(Next(s, es[0]), es[1..]);
    }
  }

  /** A picker's own probe record survives everything but its own neutral release. */
  lemma {:induction false} ProbeRecordSurvives(s: Shared, es: seq<Event>, id: nat)
    requires Feasible(s, es) && id in s.tried && id in s.probes
    requires forall k :: 0 <= k < |es| ==> !(es[k].Released? && es[k].id == id)
    ensures id in After(s, es).probes && After(s, es).probes[id] == s.probes[id]
    decreases |es|
  {
    if es != [] {
      assert !(es[0].Released? && es[0].id == id);
      assert forall k :: 0 <= k < |es[1..]| ==> es[1..][k] == es[k + 1];
      ProbeRecordSurvives(Next(s, es[0]), es[1..], id);
    }
  }

  /**
    A pick that started a probe, any events of other pickers, then a neutral release:
    `checked` goes back to what it was exactly when nobody wrote it in between, and
    otherwise the newer timestamp is left alone.
  */
  lemma NeutralReleaseRestores(s: Shared, id: nat, now: int, avail: int, es: seq<Event>, later: int)
    requires Invariant(s) && !s.single && Enabled(s, Selected(id, now, avail)) && StartsProbe(s.peer, now)
    requires Feasible(Next(s, Selected(id, now, avail)), es)
    requires forall k :: 0 <= k < |es| ==> !(es[k].Released? && es[k].id == id)
    ensures var held := After(Next(s, Selected(id, now, avail)), es);
            var done := Next(held, Released(id, Neutral, later)).peer;
            && held.peer.checkedSeq >= s.peer.checkedSeq + 1
            && (if held.peer.checkedSeq == s.peer.checkedSeq + 1 then done.checked == s.peer.checked
                else done.checked == held.peer.checked)
            && done.fails == held.peer.fails && done.accessed == held.peer.accessed
            && done.effectiveWeight == held.peer.effectiveWeight
  {
    var t := Next(s, Selected(id, now, avail));
    VersionGrows(t, es);
    ProbeRecordSurvives(t, es, id);
    ConfigFixed(t, es);
  }

  // ---------- Probe exclusivity ----------

  /** Nobody but `owner` could bring `checked` back below `t`. */
  ghost predicate ProbeHeld(s: Shared, owner: nat, t: int) {
    && s.peer.checked >= t
    && (forall id :: Live(s, id) && id != owner ==> s.probes[id].prior >= t)
  }

  lemma ProbeHeldStep(s: Shared, e: Event, owner: nat, t: int)
    requires Invariant(s) && !s.single && owner in s.tried && Enabled(s, e)
    requires ProbeHeld(s, owner, t) && NotBefore(e, t)
    requires !(e.Released? && e.id == owner && e.outcome.Neutral?)
    ensures ProbeHeld(Next(s, e), owner, t)
  {
    var n := Next(s, e);
    if e.Released? && e.outcome.Neutral? && Live(s, e.id) {
      assert s.probes[e.id].prior >= t;
    }
    forall id | Live(n, id) && id != owner ensures n.probes[id].prior >= t {
      OldOrNewProbe(s, e, id);
    }
  }

  lemma {:induction false} ProbeStaysHeld(s: Shared, es: seq<Event>, owner: nat, t: int)
    requires Invariant(s) && !s.single && owner in s.tried && Feasible(s, es)
    requires ProbeHeld(s, owner, t) && AllNotBefore(es, t)
    requires forall k :: 0 <= k < |es| ==> !(es[k].Released? && es[k].id == owner && es[k].outcome.Neutral?)
    ensures After(s, es).peer.checked >= t
    decreases |es|
  {
    if es != [] {
      var e, rest := es[0], es[1..];
      assert NotBefore(e, t) && !(e.Released? && e.id == owner && e.outcome.Neutral?);
      assert forall k :: 0 <= k < |rest| ==> rest[k] == es[k + 1];
      StepKeepsInvariant(s, e);
      ProbeHeldStep(s, e, owner, t);
      RecordKept(s, e, owner);
      hide Next;
      hide Invariant;
      hide ProbeHeld;
      ProbeStaysHeld(Next(s, e), rest, owner, t);
    }
  }

  lemma RecordKept(s: Shared, e: Event, id: nat)
    ensures Next(s, e).single == s.single && (id in s.tried ==> id in Next(s, e).tried)
  {
  }

  /**
    Probe exclusivity: a selection that advanced `checked` at `now` is, unless it is
    released neutrally, followed by no other selection of the failing peer until more
    than the fail timeout later.
  */
  lemma ProbeExclusive(s: Shared, id: nat, now: int, avail: int, es: seq<Event>, id2: nat, now2: int, avail2: int)
    requires Invariant(s) && !s.single && Enabled(s, Selected(id, now, avail)) && StartsProbe(s.peer, now)
    requires Feasible(Next(s, Selected(id, now, avail)), es) && AllNotBefore(es, now)
    requires forall k :: 0 <= k < |es| ==> !(es[k].Released? && es[k].id == id && es[k].outcome.Neutral?)
    requires var r := After(Next(s, Selected(id, now, avail)), es);
             r.peer.fails >= r.peer.cfg.maxFails > 0 && Enabled(r, Selected(id2, now2, avail2))
    ensures avail2 - now > s.peer.cfg.failTimeout
  {
    var t := Next(s, Selected(id, now, avail));
    StepKeepsInvariant(s, Selected(id, now, avail));
    ProbeStaysHeld(t, es, id, now);
    ConfigFixed(t, es);
  }

  /** Round-robin and least-conn read the clock once, so every selection they make of a failing peer starts a probe. */
  lemma OneClockStartsProbe(s: Shared, id: nat, now: int)
    requires !s.single && Enabled(s, Selected(id, now, now)) && s.peer.fails >= s.peer.cfg.maxFails > 0
    ensures StartsProbe(s.peer, now)
  {
  }

  /**
    Probe exclusivity for round-robin and least-conn: two selections of a peer, each
    made while it is at its failure limit, are more than the fail timeout apart unless
    the earlier one was released neutrally, whatever any number of pickers do between.
  */
  lemma OneClockExclusive(s: Shared, id: nat, now: int, es: seq<Event>, id2: nat, now2: int)
    requires Invariant(s) && !s.single && Enabled(s, Selected(id, now, now)) && s.peer.fails >= s.peer.cfg.maxFails > 0
    requires Feasible(Next(s, Selected(id, now, now)), es) && AllNotBefore(es, now)
    requires forall k :: 0 <= k < |es| ==> !(es[k].Released? && es[k].id == id && es[k].outcome.Neutral?)
    requires var r := After(Next(s, Selected(id, now, now)), es);
             r.peer.fails >= r.peer.cfg.maxFails && Enabled(r, Selected(id2, now2, now2))
    ensures now2 - now > s.peer.cfg.failTimeout
  {
    OneClockStartsProbe(s, id, now);
    ConfigFixed(Next(s, Selected(id, now, now)), es);
    ProbeExclusive(s, id, now, now, es, id2, now2, now2);
  }

  // ---------- Two clock readings ----------

  ghost predicate NeverNeutral(es: seq<Event>, id: nat) {
    forall k :: 0 <= k < |es| ==> !(es[k].Released? && es[k].id == id && es[k].outcome.Neutral?)
  }

  /**
    After picker `id` took the peer and without a neutral release by it, the peer, still
    or again at its failure limit, is selectable for picker `id2`.  Readings taken under
    the lock do not precede earlier ones.
  */
  ghost predicate Reselects(s: Shared, id: nat, now: int, avail: int, es: seq<Event>, id2: nat, now2: int, avail2: int) {
    var t := Next(s, Selected(id, now, avail));
    && Feasible(t, es) && AllNotBefore(es, avail) && NeverNeutral(es, id) && now2 >= avail
    && var r := After(t, es);
       r.peer.fails >= r.peer.cfg.maxFails && Enabled(r, Selected(id2, now2, avail2))
  }

  /** Every later selection is checked more than the fail timeout after `from`. */
  ghost predicate Apart(s: Shared, id: nat, now: int, avail: int, from: int) {
    forall es, id2, now2, avail2 :: Reselects(s, id, now, avail, es, id2, now2, avail2) ==> avail2 - from > s.peer.cfg.failTimeout
  }

  /** The connection is the only one allowed, and its success would count as recovery. */
  ghost predicate Sole(s: Shared, now: int) {
    s.peer.cfg.maxConns == 1 && (StartsProbe(s.peer, now) || s.peer.accessed < s.peer.checked)
  }

  /** While `id` alone holds the peer nobody gets in; afterwards it has recovered, or failed anew no earlier than `t`. */
  ghost predicate Shielded(s: Shared, id: nat, t: int) {
    && Invariant(s) && !s.single && s.peer.cfg.maxConns == 1 && id in s.tried
    && (|| (s.holders == {id} && s.peer.accessed < s.peer.checked)
        || s.peer.fails == 0
        || ProbeHeld(s, id, t))
  }

  lemma ShieldedStep(s: Shared, e: Event, id: nat, t: int)
    requires Shielded(s, id, t) && Enabled(s, e) && NotBefore(e, t)
    requires !(e.Released? && e.id == id && e.outcome.Neutral?)
    ensures Shielded(Next(s, e), id, t)
  {
    StepKeepsInvariant(s, e);
    RecordKept(s, e, id);
    if e.Released? && e.outcome.Failed? {
      FailureReportStands(s, e.id, e.now);
    } else if s.peer.fails > 0 && !(s.holders == {id} && s.peer.accessed < s.peer.checked) {
      ProbeHeldStep(s, e, id, t);
    }
  }

  lemma {:induction false} StaysShielded(s: Shared, es: seq<Event>, id: nat, t: int)
    requires Shielded(s, id, t) && Feasible(s, es) && AllNotBefore(es, t) && NeverNeutral(es, id)
    ensures Shielded(After(s, es), id, t)
    decreases |es|
  {
    hide Shielded;
    hide Next;
    if es != [] {
      assert NotBefore(es[0], t);
      assert forall k :: 0 <= k < |es[1..]| ==> es[1..][k] == es[k + 1];
      ShieldedStep(s, es[0], id, t);
      StaysShielded(Next(s, es[0]), es[1..], id, t);
    }
  }

  lemma SoleIsShielded(s: Shared, id: nat, now: int, avail: int)
    requires Invariant(s) && !s.single && Enabled(s, Selected(id, now, avail)) && Sole(s, now)
    ensures Shielded(Next(s, Selected(id, now, avail)), id, avail)
  {
    StepKeepsInvariant(s, Selected(id, now, avail));
  }

  lemma SoleApart(s: Shared, id: nat, now: int, avail: int, es: seq<Event>, id2: nat, now2: int, avail2: int)
    requires Invariant(s) && !s.single && Enabled(s, Selected(id, now, avail)) && s.peer.cfg.maxFails > 0 && Sole(s, now)
    requires Reselects(s, id, now, avail, es, id2, now2, avail2)
    ensures avail2 - avail > s.peer.cfg.failTimeout
  {
    var t := Next(s, Selected(id, now, avail));
    SoleIsShielded(s, id, now, avail);
    StaysShielded(t, es, id, avail);
    ConfigFixed(t, es);
  }

  lemma ProbeApart(s: Shared, id: nat, now: int, avail: int, es: seq<Event>, id2: nat, now2: int, avail2: int)
    requires Invariant(s) && !s.single && Enabled(s, Selected(id, now, avail)) && s.peer.cfg.maxFails > 0
    requires StartsProbe(s.peer, now) && Reselects(s, id, now, avail, es, id2, now2, avail2)
    ensures avail2 - now > s.peer.cfg.failTimeout
  {
    forall k | 0 <= k < |es| ensures NotBefore(es[k], now) {
      assert NotBefore(es[k], avail);
    }
    ConfigFixed(Next(s, Selected(id, now, avail)), es);
    ProbeExclusive(s, id, now, avail, es, id2, now2, avail2);
  }

  /** There are always further pickers. */
  lemma {:induction false} AnotherPicker(ids: set<nat>) returns (id: nat)
    ensures forall i :: i in ids ==> i < id
    decreases |ids|
  {
    if ids == {} {
      id := 0;
    } else {
      var i :| i in ids;
      var rest := ids - {i};
      id := AnotherPicker(rest);
      assert forall k :: k in ids ==> k == i || k in rest;
      if id <= i {
        id := i + 1;
      }
    }
  }

  /** What makes room on a peer in use, changing neither its failures nor, upwards, its timestamp. */
  lemma MakesRoom(s: Shared, id: nat, at: int) returns (es: seq<Event>)
    requires Invariant(s) && !s.single && id in s.holders
    requires s.peer.cfg.maxConns == 1 ==> s.peer.accessed == s.peer.checked
    ensures Feasible(s, es) && AllNotBefore(es, at) && NeverNeutral(es, id)
    ensures var r := After(s, es);
            && r.peer.cfg == s.peer.cfg && r.peer.fails == s.peer.fails && r.peer.checked <= s.peer.checked
            && r.tried == s.tried && !r.single && !Full(r.peer)
  {
    if !Full(s.peer) {
      es := [];
    } else if j :| j in s.holders && j != id {
      if Live(s, j) {
        assert s.probes[j].prior <= s.peer.checked;
      }
      es := [Released(j, Neutral, at)];
      assert After(s, es) == Next(s, es[0]);
    } else {
      assert s.holders == {id};
      es := [Released(id, Succeeded, at)];
      assert After(s, es) == Next(s, es[0]);
    }
  }

  /** Unless it is shielded, the peer can be selected again once its timestamp is old enough, and as soon as that. */
  lemma Reselectable(s: Shared, id: nat, now: int, avail: int, u: int)
    returns (es: seq<Event>, id2: nat)
    requires Invariant(s) && !s.single && Enabled(s, Selected(id, now, avail)) && s.peer.fails >= s.peer.cfg.maxFails > 0
    requires !Sole(s, now) && u >= avail && u - Commit(s.peer, now).checked > s.peer.cfg.failTimeout
    ensures Reselects(s, id, now, avail, es, id2, u, u)
  {
    var t := Next(s, Selected(id, now, avail));
    StepKeepsInvariant(s, Selected(id, now, avail));
    es := MakesRoom(t, id, avail);
    id2 := AnotherPicker(t.tried);
  }

  /**
    The hash-family pickers read the clock again to check availability, so for them
    exclusivity is not given.  Exactly when it holds, over every later selection: counted
    from the committing reading, when that reading was past the fail timeout already, or
    the checking one came later by more than the timeout; counted from the checking
    reading, when the two agree.  A peer limited to one connection is safe either way if
    its success would count as recovery.
  */
  lemma TwoClockExclusivity(s: Shared, id: nat, now: int, avail: int)
    requires Invariant(s) && !s.single && Enabled(s, Selected(id, now, avail)) && s.peer.fails >= s.peer.cfg.maxFails > 0
    ensures Apart(s, id, now, avail, now) <==>
            StartsProbe(s.peer, now) || avail - now > s.peer.cfg.failTimeout || Sole(s, now)
    ensures Apart(s, id, now, avail, avail) <==> now == avail || Sole(s, now)
  {
    ApartWhen(s, id, now, avail);
    var limit := s.peer.cfg.failTimeout;
    if !(StartsProbe(s.peer, now) || avail - now > limit || Sole(s, now)) {
      var es, id2 := Reselectable(s, id, now, avail, avail);
      assert !Apart(s, id, now, avail, now);
    }
    if !(now == avail || Sole(s, now)) {
      var u := if StartsProbe(s.peer, now) && avail < now + limit + 1 then now + limit + 1 else avail;
      var es, id2 := Reselectable(s, id, now, avail, u);
      assert !Apart(s, id, now, avail, avail);
    }
  }

  lemma ApartWhen(s: Shared, id: nat, now: int, avail: int)
    requires Invariant(s) && !s.single && Enabled(s, Selected(id, now, avail)) && s.peer.fails >= s.peer.cfg.maxFails > 0
    ensures StartsProbe(s.peer, now) || avail - now > s.peer.cfg.failTimeout || Sole(s, now) ==> Apart(s, id, now, avail, now)
    ensures now == avail || Sole(s, now) ==> Apart(s, id, now, avail, avail)
  {
    forall es, id2, now2, avail2 | Reselects(s, id, now, avail, es, id2, now2, avail2)
      ensures StartsProbe(s.peer, now) ==> avail2 - now > s.peer.cfg.failTimeout
      ensures Sole(s, now) ==> avail2 - avail > s.peer.cfg.failTimeout
      ensures avail2 >= avail
    {
      ConfigFixed(Next(s, Selected(id, now, avail)), es);
      if StartsProbe(s.peer, now) {
        ProbeApart(s, id, now, avail, es, id2, now2, avail2);
      }
      if Sole(s, now) {
        SoleApart(s, id, now, avail, es, id2, now2, avail2);
      }
    }
    if now == avail {
      OneClockStartsProbe(s, id, now);
    }
  }

  /** A run from a peer nobody has used in which two pickers with two readings probe it, failing, at the same instant. */
  lemma TwoClockCounterexample() returns (s: Shared, es: seq<Event>)
    ensures Start(s) && !s.single && Feasible(s, es)
    ensures es == [Selected(9, 100, 100), Released(9, Failed, 100), Selected(0, 110, 111), Selected(1, 111, 111)]
    ensures s.peer.cfg.failTimeout == 10
    ensures var r := After(s, es[..2]); r.peer.fails >= r.peer.cfg.maxFails > 0
    ensures var r := After(s, es[..3]); r.peer.fails >= r.peer.cfg.maxFails > 0
  {
    s := Begin(Config("a", 1, false, 0, 1, 10, false), false);
    es := [Selected(9, 100, 100), Released(9, Failed, 100), Selected(0, 110, 111), Selected(1, 111, 111)];
    var s1 := Next(s, es[0]);
    var s2 := Next(s1, es[1]);
    var s3 := Next(s2, es[2]);
    assert es[1..] == [es[1], es[2], es[3]] && es[2..] == [es[2], es[3]];
    assert Feasible(s3, [es[3]]) && Feasible(s2, es[2..]);
    assert Feasible(s1, es[1..]);
    assert After(s1, [es[1]]) == s2 && After(s1, [es[1], es[2]]) == After(s2, [es[2]]) == s3;
    assert es[..2] == [es[0], es[1]] && es[..3] == [es[0], es[1], es[2]];
    assert es[..2][1..] == [es[1]] && es[..3][1..] == [es[1], es[2]];
  }

  /** After a neutral release the probe is free again: the same instant suits the next picker. */
  lemma NeutralHandsProbeBack(s: Shared, id: nat, now: int, later: int, id2: nat)
    requires Invariant(s) && !s.single && Enabled(s, Selected(id, now, now))
    requires id2 !in s.tried && id2 != id
    ensures var t := Next(Next(s, Selected(id, now, now)), Released(id, Neutral, later));
            t.peer.(checkedSeq := s.peer.checkedSeq) == s.peer && Enabled(t, Selected(id2, now, now))
  {
  }
}
