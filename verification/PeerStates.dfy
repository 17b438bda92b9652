/** What a peer is, on values (balancer.go), and the availability test (util.go). */
module PeerStates {
  import opened Smooth

  datatype Option<+T> = None | Some(value: T)

  /** Durations and instants are nanoseconds; the zero instant stands for Go's zero time. */
  const SECOND: int := 1_000_000_000

  /** A server as configured; the two flags tell an explicit zero from an omitted one. */
  datatype Server = Server(
    addr: string, weight: int, down: bool, maxConns: int, maxFails: int, failTimeout: int, backup: bool,
    explicitMaxFails: bool, explicitFailTimeout: bool)

  datatype Config = Config(
    addr: string, weight: int, down: bool, maxConns: int, maxFails: int, failTimeout: int, backup: bool)

  /** The defaulting half of `Peer.init`. */
  function Defaulted(s: Server): Config {
    Config(s.addr,
           if s.weight <= 0 then 1 else s.weight,
           s.down, s.maxConns,
           if s.maxFails == 0 && !s.explicitMaxFails then 1 else s.maxFails,
           if s.failTimeout == 0 && !s.explicitFailTimeout then 10 * SECOND else s.failTimeout,
           s.backup)
  }

  /** The defaults, field by field: only what was left out is filled in, and never what was given explicitly. */
  lemma DefaultsInFields(s: Server)
    ensures var c := Defaulted(s);
            && c.weight >= 1 && (s.weight >= 1 ==> c.weight == s.weight) && (s.weight < 1 ==> c.weight == 1)
            && (c.maxFails == 0 <==> s.maxFails == 0 && s.explicitMaxFails) && (s.maxFails != 0 ==> c.maxFails == s.maxFails)
            && (s.maxFails == 0 && !s.explicitMaxFails ==> c.maxFails == 1)
            && (c.failTimeout == 0 <==> s.failTimeout == 0 && s.explicitFailTimeout)
            && (s.failTimeout != 0 ==> c.failTimeout == s.failTimeout)
            && (s.failTimeout == 0 && !s.explicitFailTimeout ==> c.failTimeout == 10_000_000_000)
            && c.addr == s.addr && c.down == s.down && c.maxConns == s.maxConns && c.backup == s.backup
  {
  }

  /** Everything a critical section can see of a peer. */
  datatype PeerState = PeerState(
    cfg: Config, currentWeight: int, effectiveWeight: int, conns: int, fails: int,
    accessed: int, checked: int, checkedSeq: nat)
  {
    function ToSlot(): Slot {
      Slot(cfg.weight, currentWeight, effectiveWeight)
    }
  }

  function Initial(cfg: Config): PeerState {
    PeerState(cfg, 0, cfg.weight, 0, 0, 0, 0, 0)
  }

  /** Too many recent failures: nobody may select the peer at instant `now`. */
  predicate Quarantined(p: PeerState, now: int) {
    p.cfg.maxFails > 0 && p.fails >= p.cfg.maxFails && now - p.checked <= p.cfg.failTimeout
  }

  predicate Full(p: PeerState) {
    p.cfg.maxConns > 0 && p.conns >= p.cfg.maxConns
  }

  predicate Available(p: PeerState, now: int) {
    !Quarantined(p, now) && !Full(p)
  }

  /** What round-robin and least-conn require of a candidate. */
  predicate Eligible(p: PeerState, tried: bool, now: int) {
    !tried && !p.cfg.down && Available(p, now)
  }

  ghost predicate Distinct<T>(s: seq<T>) {
    forall i, j :: 0 <= i < j < |s| ==> s[i] != s[j]
  }
}
