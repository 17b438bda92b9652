# Verified model of cslb

`cslb` is a client-side load balancer for Go's `net/http` that follows nginx's upstream
selection. Every request gets a *picker*, which selects peers out of a primary and a backup
group until one answers. Pickers of concurrent requests share the peers, under one lock per
group.

The project models four parts of it and proves what they promise.

* **Smooth weighted round-robin and peer health.** `Smooth` is one scheduling pass on values;
  `Fairness`, `BoundedWait` and `Service` are what whole runs of it guarantee. `PeerStates` is a
  peer on values, and `Health` the protocol of selections and releases by any number of pickers
  on one shared peer: a transition system whose events are critical sections. `Peers` holds the
  peer objects, groups and the clock. `RoundRobin` is the code: the mutating pass and the
  per-request picker that every other algorithm embeds.
* **The wrapping algorithms.** `LeastConn`, `Hash`, `IPHash`, `Random` (plain and
  two-choices) and `ConsistentHash`; `HashFamily` and `Weighted` hold what they share. `Pickers`
  puts all seven behind one interface and states what holds of any run of Picks, and
  `Concurrency` what holds of many pickers at once.
* **The ketama ring.** `Ring`: generation, stable sort, in-place compaction, lookup and the
  consistent-hashing theorem, for every hash function.
* **The retry loop.** `RoundTrip`: peers, response bodies, per-attempt cancels and request
  bodies, against an adversarial round tripper, retry condition and caller.

`Sums` is arithmetic on sequences.

## How code and protocol hang together

The objects (`Peer`, the pickers) are classes whose methods update fields as the source does.
Each critical section is tied to a function on peer states (`Pass`, `Elect`, `LeastElect`,
`Commit`, `Settle`), and the theorems about schedules are about those functions.

Every peer carries its past: a ghost list of the health protocol's events. It is *lawful* when
that list is a run the protocol allows and the peer's fields are where the run leads
(`Peer.Lawful`). A critical section of any picker keeps every peer lawful and adds to the pasts
only weighings and events in its own picker's name (`RRPicker.Acted`); and it keeps the picker's
tried set and probe record in agreement with the pasts (`RRPicker.Consistent`). Between two critical
sections of a picker, `Peers.OtherRequests` lets other requests do to the peers whatever is lawful
and not in this picker's name, and notes which events are theirs; everything else that is new
after a Pick, a release or a whole call is a weighing or in the picker's own name
(`RRPicker.Moved`). What a critical section does is what every other picker allows
(`RRPicker.Spares`), so `OtherRequests` assumes of others no more than the pickers deliver; and
`Concurrency.Crowd` has any number of pickers of all seven algorithms run their critical sections,
their own and the round-robin ones they fall back to, interleaved in any order, without that
assumption. Nothing but `OtherRequests` changes the note of which events are others'
(`Peer.others`); a critical section promises to leave it alone, and for the rest that is a rule
the methods keep, not one Dafny enforces. So what `Health` proves of every
interleaving holds of the peers the code works on (`Peers.LawfulIsSafe`). A peer can be given
back only by who holds it, and only once; and the states a Pick claims to have seen must lie in
the pasts of their peers (`Seen`).

The retry loop likewise records in an `Outside` object every call of the round tripper with the
request body it carried, every body produced and every failure to produce one, every opinion of a
custom retry condition, every context it creates and every look at the caller's; random choice
records the numbers drawn in `Dice`; and the contracts speak of those records.

The clock (`Peers.Clock`) returns arbitrary readings that never decrease.

## Preconditions

What the model asks of its callers is what the source relies on: peers are distinct objects,
each in one group, and lawful; weights are at least one and primaries are not marked as backups,
which `Peers.BuildGroups` establishes; the total weight fits 32 bits where it divides a 32-bit
hash (hash.go:86, iphash.go:102); a peer is released by the picker that selected it, once per
selection; pickers do not share their numbers; the fail timeout is not negative where timing is
concerned. net/http is taken to report through its trace hooks that it writes a request before
it reads the request's body; the streaming theorem for net/http rests on that.

## What turned out false

Probe exclusivity — a failing peer is selected again only more than the fail timeout after the
last selection, unless that was released neutrally — holds for round-robin and least-conn
(`Health.OneClockExclusive`). For hash, ip-hash, random and consistent-hash it does not: they
check availability with a second clock reading (util.go:8) but commit with the first, so a peer
whose timeout runs out between the two is taken without its `checked` advancing, and the next
picker may take it at once. `Health.TwoClockCounterexample` is such a run from an unused peer.
`Health.TwoClockExclusivity` gives the exact conditions, over every later selection. Counted from
the committing reading: that reading was past the fail timeout, or the checking one came more
than the timeout after it. Counted from the checking reading: the two readings agree. Either way
it also holds if the peer may have only one connection and a success on it would count as
recovery.

The comment at transport.go:899-902 says that contract violations of a round tripper are not
retryable. The code leaves that to the retry condition (transport.go:940-946).
`RoundTrip.ContractErrorsAreRetried` says exactly when they are retried, and
`RoundTrip.ContractErrorRetriedOnce` is an instance; the model follows the code.

## Model

| member | source | states |
|---|---|---|
| `Smooth.LeaderIsFirstMaximum` | roundrobin.go:167-180 | the scan elects the first eligible peer with the greatest current weight, and nobody exactly when nobody is eligible |
| `Smooth.PassFrame` | roundrobin.go:163-186 | for any eligible set, a pass keeps effective weights between 0 and the weight, leaves ineligible peers untouched, and has a winner exactly when somebody is eligible, always an eligible one |
| `Smooth.PassConserves` | roundrobin.go:163-186 | for any eligible set and any degraded weights, the sum of current weights over the eligible peers is unchanged |
| `Smooth.DegradeInRange` | roundrobin.go:267-272 | a failure penalty never raises the effective weight and never takes it below 0 |
| `Health.FailuresAddUp` | roundrobin.go:261-272 | n failure reports with nothing between take an effective weight e to max(0, e − n·(weight / maxFails)), or leave it alone without a limit; all are counted, and the last one's instant is on both timestamps |
| `Health.LimitOfFailuresSilences` | roundrobin.go:267-272 | if the limit divides the weight, a full weight is down to exactly 0 after as many failures in a row as the limit, and no sooner |
| `Fairness.BooksBalance` | roundrobin.go:163-186 | after any t passes from the initial state, each peer's current weight is t·w − n·W for its n wins, above −W, and the current weights sum to 0 |
| `Fairness.PrefixQuota` | roundrobin.go:163-186 | after any t passes n·W < t·w + W: no peer is a whole turn ahead of its share |
| `Fairness.ExactShare` | roundrobin.go:163-186 | after k·W passes each peer was elected exactly k·w times and the whole scheduler state is the initial one |
| `Fairness.SchedulePeriodic` | roundrobin.go:163-186 | the sequence of elected peers repeats with period W |
| `BoundedWait.HistoryConserves` | roundrobin.go:163-186 | after any mixture of passes over arbitrary eligible sets and failure reports, weights are in range and the group's current weights sum to what they started from |
| `BoundedWait.RunFloor` | roundrobin.go:163-186 | with a fixed eligible set nobody ever sinks more than the total weight below the lowest starting level |
| `BoundedWait.RecoversByOne` | roundrobin.go:172-176 | a degraded effective weight comes back by one per pass the peer is eligible in, to the weight and no further |
| `BoundedWait.EveryPeerIsElected` | roundrobin.go:163-186 | from any state with weights in range, degraded to 0 or not, every eligible peer of a fixed eligible set is elected within an explicit number of passes |
| `BoundedWait.ReachableWait` | roundrobin.go:163-186 | the same from every state that passes and failures can lead to |
| `Service.ServiceIsSchedule` | roundrobin.go:111-159 | overlapping requests whose arrivals find the same peers eligible, and that do not fail, move the scheduler by one pass per arrival and not at all per release |
| `Service.RoundRobinIsFair` | roundrobin.go:111-159 | with any number of overlapping requests, from initialised peers: prefix quota always, exact shares and current weights back at 0 after every full cycle |
| `Service.NobodyWaitsLong` | roundrobin.go:111-159 | with any number of overlapping requests, from any state with weights in range: of any `WaitBound` arrivals in a row that find the same peers eligible, each of those peers is given one, if nothing fails |
| `Peers.Peer.constructor` | balancer.go:78-90 | a peer starts with the defaults applied, full effective weight and nothing counted |
| `PeerStates.DefaultsInFields` | balancer.go:78-90 | a weight below 1 becomes 1, and a failure limit or timeout of 0 that was not given explicitly becomes 1 failure or 10 seconds; everything else is kept |
| `Peers.BuildGroups` | balancer.go:103-126 | the groups hold exactly the non-nil servers of their kind, in order and initialised, the total weight is the sum of the weights, and the fast path is on exactly for one primary without backups |
| `Peers.MembersAreTheServers` | balancer.go:103-126 | the members of a group are the defaulted configurations of exactly the non-nil servers of its kind, each once and in order |
| `Peers.LawfulIsSafe` | roundrobin.go:111-281 | a peer whose past is a run of the protocol, which every picker's code keeps it, has its connections counted and capped, its weight in range and no failure forgotten |
| `Health.StepKeepsInvariant` | roundrobin.go:191-281 | every event of any picker keeps the whole invariant: connections, cap, weights, timestamps, probe versions |
| `Health.RunKeepsInvariant` | roundrobin.go:191-281 | every interleaving of selections, passes and releases by any number of pickers keeps the invariant |
| `Health.ForeignKeepsStake` | roundrobin.go:191-281 | nothing other pickers do to a peer changes what a picker has tried, holds, probes or reported |
| `Health.SelectableExactly` | roundrobin.go:116-150 | a peer may be selected exactly when it is untried, up, below its cap and, outside the single-peer group, below its failure limit, without one, or rested for longer than the fail timeout |
| `Health.SelectableBelowLimit` | roundrobin.go:141-145 | an untried peer that is up, below its cap and below its failure limit may be selected at every instant |
| `Health.ReachableInvariant` | roundrobin.go:115-125 | in every reachable state, fast path included, `conns` is the number of outstanding selections, within `MaxConns`, the effective weight is in range, and `checked` is not before the last failure |
| `Health.AccessedIsLastFailure` | roundrobin.go:261-265 | over any run `accessed` is the instant of the last failure report |
| `Health.SelectionOutwaitsLastFailure` | roundrobin.go:141-145 | in any run a peer at its failure limit is selected only more than `FailTimeout` after the last failure report |
| `Health.StaleReleasesKeepFailure` | roundrobin.go:241-278 | until a later selection advances `checked`, no success or neutral release in flight clears `fails` or moves `checked` off the failure |
| `Health.NoSelectionDuringQuarantine` | roundrobin.go:139-145 | after a failure report that reaches the limit, no interleaving contains a selection checked within the fail timeout |
| `Health.NeutralReleaseRestores` | roundrobin.go:246-254 | a neutral release after arbitrary events of others restores `checked` exactly when nobody wrote it meanwhile, and else leaves the newer value; it never changes failures or weights |
| `Health.NeutralHandsProbeBack` | roundrobin.go:241-256 | an undisturbed pick and neutral release restore the peer up to its version, and another picker may probe at once |
| `Health.ProbeExclusive` | roundrobin.go:191-204 | a selection that advanced `checked` and is not released neutrally is followed by no selection of the failing peer within the fail timeout, whatever happens between |
| `Health.OneClockExclusive` | roundrobin.go:127-145 | with one clock reading, two selections of a peer at its failure limit are more than the fail timeout apart unless the earlier is released neutrally |
| `Health.TwoClockExclusivity` | util.go:7-14 | exactly when a picker with two clock readings keeps every later selection of a failing peer more than the fail timeout away, counted from its committing reading and counted from its checking reading |
| `Health.TwoClockCounterexample` | hash.go:73-102 | a run from an unused peer in which two pickers with two readings probe it, failing, at the same instant |
| `RoundRobin.RaiseEligible` | roundrobin.go:163-180 | the mutating loop hands out exactly the gains of the pass, returns their total and the first maximum |
| `RoundRobin.SmoothWeightedPeer` | roundrobin.go:163-186 | the loop on shared peers computes `Pass`, the function all scheduling theorems are about |
| `RoundRobin.RRPicker.Weigh` | roundrobin.go:163-186 | a smooth pass on shared peers is a weighing event in the past of each |
| `RoundRobin.NewRoundRobin` | roundrobin.go:16-23 | from any list of servers: a picker whose peers are the configured ones, unused and lawful, and whose record agrees with them |
| `RoundRobin.RRPicker.Claim` | roundrobin.go:191-208 | committing an available, untried peer is a selection of the protocol in this picker's name and all that happened; the picker's tried set and probe record still say what the pasts of all its peers say |
| `RoundRobin.RRPicker.Spares` | roundrobin.go:111-281 | what a critical section of one picker does is, for any other picker, what it allows others to do: the other still agrees with the pasts of its peers |
| `RoundRobin.RRPicker.PickSingle` | roundrobin.go:115-125 | the fast path refuses a tried, down or full peer and otherwise only counts a connection, which is a selection of the protocol |
| `RoundRobin.BarrenInFields` | roundrobin.go:116-150 | nobody is a candidate exactly when every peer is tried, down or at its cap, or, in a group of several, has failed up to its limit and not rested for longer than the fail timeout |
| `RoundRobin.RRPicker.ElectAndCommit` | roundrobin.go:154-158 | the peers become those of one election, nil exactly when nobody was eligible; the winner is taken lawfully, with the instants given, and no other stake of the picker changes |
| `RoundRobin.RRPicker.PickFromGroup` | roundrobin.go:111-159 | nil exactly when no peer of the group was a candidate when the lock was held, said in the fields of the peers too; otherwise the winner of an election among exactly the candidates, checked and committed with one clock reading; all that happened is weighings and this selection |
| `RoundRobin.RRPicker.Consult` | roundrobin.go:111-159 | the section on record shows the peers as their pasts say they really were |
| `RoundRobin.RRPicker.BackupGroupForPick` | roundrobin.go:94-107 | entering the backups is one-way and, despite the deletion, forgets no tried peer |
| `RoundRobin.RRPicker.Pick` | roundrobin.go:69-85 | no repeats, no down peers, no primary once in the backups; the result is the round-robin winner of the last group consulted and those before it were barren, as the pasts of their peers witness; nil only if all were; whatever others did meanwhile, the code selected exactly the returned peer and did nothing in anyone else's name |
| `RoundRobin.RRPicker.Settling` | roundrobin.go:236-281 | every field of the peer, and the probe record, after a release, for each outcome and for the single-peer group; a failure costs the weight divided by the limit, down to 0 |
| `RoundRobin.RRPicker.Release` | roundrobin.go:223-281 | only a peer the picker holds can be given back, and only once; the release is the only thing that happens, and every field of the peer is as its outcome demands |
| `LeastConn.LeastElectIsMinimum` | leastconn.go:73-115 | the selected peer, tie-break included, minimises connections per weight over all eligible peers; there is one whenever somebody is eligible; it alone gains a connection |
| `LeastConn.ManyIsTieWithLeast` | leastconn.go:79-86 | two peers attain the minimum exactly when another eligible peer ties with the first one found |
| `LeastConn.PicksStayBalanced` | leastconn.go:49-116 | over any run of picks with a fixed eligible set, (conns_i − 1)·w_j <= conns_j·w_i for all pairs |
| `LeastConn.IdleElectionsAgree` | leastconn.go:92-115 | with nothing in flight and two peers eligible, least-conn and round-robin elect the same peer and leave the same states |
| `LeastConn.IdleRunsAgree` | leastconn.go:49-116 | whole runs of pick-then-release requests, failures included, leave the same peers under both as long as two stay eligible |
| `LeastConn.LeastConnPicker.Scan` | leastconn.go:53-86 | the first pass finds the first minimum, and `many` exactly when two eligible peers attain it |
| `LeastConn.LeastConnPicker.CommitLeast` | leastconn.go:92-115 | the second pass never comes back empty, and a minimum is taken, lawfully and with one clock reading |
| `LeastConn.LeastConnPicker.PickLeast` | leastconn.go:49-116 | the critical section is `LeastElect` among exactly the candidates; nil exactly when there is none |
| `LeastConn.LeastOutcomeIsLightest` | leastconn.go:73-86 | in the fields of the peers: in a group of several, no untried peer that is up, below its cap and its limit had fewer connections per weight than the one taken |
| `LeastConn.LeastConnPicker.Pick` | leastconn.go:45-47 | the same with the least-conn winner, which no candidate undercuts in connections per weight |
| `Weighted.ShareIsWeight` | random.go:55-59 | exactly `Weight` of the numbers below the total fall on each peer |
| `Weighted.LinearWalk` | hash.go:88-99 | the subtracting walk finds the owner, and falls through exactly for numbers not below the total |
| `Weighted.BinarySelect` | random.go:180-189 | the binary search returns the same peer as the linear walk, for every number below the total |
| `HashFamily.CommitCandidate` | hash.go:101-105 | a candidate is taken lawfully, with the committing and the checking instant on record, and no other peer of the group changes |
| `HashFamily.RefusedInFields` | util.go:7-21 | a candidate is refused exactly when it is down, tried, at its cap, or has failed up to its limit and not rested for longer than the fail timeout |
| `HashFamily.PickAfter` | hash.go:110-111 | the fall back to round-robin after other requests ran: everything round-robin guarantees, counted from the start of the Pick |
| `Hash.HashPicker.HashStep` | hash.go:82-84 | the cumulative hash is the sum, in 32 bits, of the 15-bit terms so far |
| `Hash.HashPicker.TermIsMiddleBits` | hash.go:78-82 | the term is bits 16 to 30 of the checksum of the key, with the retry number before it from the second candidate on |
| `Hash.HashPicker.NextCandidate` | hash.go:75-99 | candidate number k depends on the key and k alone, however the Picks are split, and always exists |
| `Hash.HashPicker.Search` | hash.go:75-108 | the loop stops at the first candidate not refused, or with more than 20 tries spent and all refused; each try is one candidate |
| `Hash.HashPicker.PickHashed` | hash.go:72-110 | the peer taken is the first candidate not refused and alone is changed; coming back empty means the tries were really used, one per candidate up to the limit, all of them refused on the peers as found, and no peer was touched |
| `Hash.HashPicker.Pick` | hash.go:64-112 | off the fast path the result is the first acceptable hashed candidate, or all candidates the remaining tries allow were looked at and refused, and the result is the round-robin winner; no repeats, nil only if every group consulted was barren; the backups are entered only on the permanent fast path or with the tries spent |
| `IPHash.IPHashPicker.NextCandidate` | iphash.go:97-115 | candidate number n is the owner of the n-fold fold of 89 |
| `IPHash.RollingIsNumeral` | iphash.go:98-101 | the n-fold fold is one numeral in base 113, the digit 89 followed by the address n times, modulo 6271 |
| `IPHash.IPHashPicker.Search` | iphash.go:97-126 | the loop stops at the first candidate not refused, or with more than 20 tries spent and all refused; each try is one candidate |
| `IPHash.IPHashPicker.PickHashed` | iphash.go:93-128 | the first candidate not refused is taken, and alone; while tries remain the stored hash is the fold over all candidates seen, across Picks; coming back empty means the tries were really used, one per candidate, all refused on the peers as found, and no peer was touched |
| `IPHash.IPHashPicker.Pick` | iphash.go:64-130 | with an address and several peers the result is the first acceptable candidate of the current group, the backups once they are entered, or all candidates the remaining tries allow were refused and the result is the round-robin winner; no repeats, one-way backups, nil only if every group consulted was barren |
| `Random.RandomPicker.RandomSelect` | random.go:172-190 | the peer a drawn number falls on is its owner |
| `Random.RandomPicker.DrawOne` | random.go:106-121 | the peer is the owner of the last number drawn, it was acceptable, and the owners of all numbers drawn before were refused |
| `Random.RandomPicker.DrawTwo` | random.go:138-164 | two numbers fell on different acceptable primaries, all others on refused ones or again on the first; of the two the less loaded is chosen, the second when they tie; coming back empty means the tries were really drawn, every number falling on a refused primary or, after a first acceptable one, again on it |
| `Random.RandomPicker.PickDrawn` | random.go:96-166 | the one so drawn is taken and nothing else changes; coming back empty means the remaining tries were drawn to no avail, and no peer is touched; one number per try is drawn |
| `Random.RandomPicker.Pick` | random.go:88-168 | off the fast path the result is the peer the numbers drawn determine, and nothing else changes, or the remaining tries were drawn to no avail and the result is the round-robin winner; no repeats, one-way backups, nil only if every group consulted was barren |
| `Ring.StableSortIsStable` | chash.go:167-170 | the sort is a sort, and points of equal hash keep their order of generation |
| `Ring.RingIsRing` | chash.go:159-183 | the ring is strictly ascending, has exactly the generated hashes, and each belongs to the first peer that generated it |
| `Ring.RingUnique` | chash.go:172-173 | the generated points determine the ring |
| `Ring.AppendPoints` | chash.go:151-164 | a peer contributes weight·160 chained points |
| `Ring.PointsAreChained` | chash.go:151-164 | each point is the checksum of the seed and four bytes that spell the point before it, least significant first, the first of them zero |
| `Ring.Compact` | chash.go:174-183 | the in-place compaction overwrites no unread point and leaves the deduplicated list |
| `Ring.BuildRing` | chash.go:138-184 | the built list is the ring of all generated points; weightless peers contribute none |
| `Ring.FindStart` | chash.go:189-197 | the first point not below the key, wrapping to the first of all |
| `Ring.StartIsOwner` | chash.go:189-197 | lookup finds the clockwise owner, as defined on the generated points without any ring |
| `Ring.OwnersSurvive` | chash.go:138-197 | deleting points of one peer leaves every key that peer did not own with its owner, collisions and wrap-around included |
| `Ring.LoweringDrops` | chash.go:159-164 | lowering a weight only deletes points of that peer |
| `Ring.RemovedIsWeightless` | chash.go:147-150 | removing a peer generates the same points as keeping it without weight |
| `Ring.RingsDifferOnlyAtServer` | chash.go:138-197 | for any hash function: between a ring and the ring with one weight lowered, a key keeps its very point or was served by that peer; read backwards, raising a weight moves keys only to that peer |
| `Ring.RemovalMovesOnlyItsKeys` | chash.go:138-197 | the same for removing a peer, or adding one |
| `ConsistentHash.RingFor` | chash.go:43-49 | a balancer's points are the ring of its primaries, and of their addresses |
| `ConsistentHash.ChashPicker.ElectOn` | chash.go:107-115 | a smooth election among exactly the acceptable peers of a server, the winner taken lawfully; or all of them refused |
| `ConsistentHash.ChashPicker.PickOnRing` | chash.go:98-122 | the server found is the first from the key with an acceptable peer, continuing where the last Pick stopped; coming back empty means the tries were really used, one per server, and every peer of each was refused as found |
| `ConsistentHash.ChashPicker.Pick` | chash.go:87-124 | off the fast path the result is elected at the first server, clockwise from the key's owner, with an acceptable peer, or every server the remaining tries allow had all its peers refused and the result is the round-robin winner; the starting point never moves; no repeats, one-way backups, nil only if every group consulted was barren |
| `ConsistentHash.OnlyItsKeysMove` | chash.go:31-35 | between two balancers that differ in one server's weight or presence, a key is first sent to the same server, or was first sent to that server where it weighs more |
| `Pickers.Picker.Pick` | balancer.go:143-147 | every algorithm's Pick: what that algorithm promises of its result, and no other's; no repeats, one-way backups, exactly the returned peer selected and nothing done in anyone else's name, nil only when everything consulted was barren, the picker's record in agreement with its peers' pasts |
| `Pickers.Picker.Done` | balancer.go:149-151 | every algorithm's release: of a held peer only, once, with the outcome given, and nothing else happens |
| `Pickers.BackupsOnlyWhenBarren` | roundrobin.go:73-84 | for every algorithm, a Pick that turned to the backups found no candidate among the primaries |
| `Pickers.NilMeansNobodyFree` | roundrobin.go:73-92 | for every algorithm, nil means of each peer the picker could still have had, in its own fields, that at a moment within the Pick it was tried, down, at its cap, or in quarantine |
| `Pickers.NoRepeatsAndNoWayBack` | roundrobin.go:73-107 | over any run of Picks no peer is returned twice, and after a backup no primary |
| `Pickers.AttemptsBounded` | balancer.go:201-215 | distinct usable peers can be attempted at most as often as there are usable peers |
| `Pickers.PickWithRetry` | balancer.go:188-216 | terminates; every call of the caller's function goes to a different usable peer, primaries first; each of those peers was selected once and given back once, with the answer, no other peer was selected, and nothing was done in anyone else's name; giving up means the last Pick found everything consulted barren; others are at work between any two critical sections |
| `Concurrency.OwnSectionOf` | hash.go:72-110 | the critical section of an algorithm's own takes at most one peer, in its picker's name, and does nothing else; it comes back empty only with the tries spent |
| `Concurrency.BaseSection` | roundrobin.go:73-92 | the critical section every algorithm falls back to, on the primaries or on the backups: nil exactly when the group was barren, as its peers' pasts witness; one peer taken at most, in the picker's name |
| `Concurrency.Crowd` | roundrobin.go:111-281 | any number of pickers of one balancer, of any algorithms, and any schedule of their critical sections (their own, and the round-robin ones they fall back to, primaries and backups) and releases: throughout every picker agrees with its peers' pasts, the sets kept are exactly what each holds, every peer is lawful, and all that was done to the peers was done in the name of one of them |
| `RoundTrip.CountUsable` | transport.go:658-663 | the count of servers not marked down is the number of peers any picker may return |
| `RoundTrip.DecisionRules` | transport.go:927-971 | neutral exactly for a broken round tripper; a retry exactly when wanted and not gated; otherwise a failure exactly when a retry was wanted and no answer excuses the peer |
| `RoundTrip.ContractErrorsAreRetried` | transport.go:936-952 | a contract error is retried exactly when any error would be: at the condition's wish, always by default, unless the request is gated |
| `RoundTrip.ContractErrorRetriedOnce` | transport.go:899-902 | a concrete contract error that is retried |
| `RoundTrip.ModesInFields` | transport.go:986-1148 | how the request body reaches the attempts, for each combination of GetBody, body, seeker, method gate and number of usable peers; it is read into memory exactly when it may be replayed and there is no other way |
| `RoundTrip.Send` | transport.go:838-862 | one call of the round tripper and one context; the cancel called at once on error and otherwise tied to the body; everything ever received accounted for |
| `RoundTrip.Judge` | transport.go:875-885 | the peer is given back, once, with the outcome that the decision on the answer and on the custom retry condition's recorded opinion calls for |
| `RoundTrip.AttemptPeer` | transport.go:838-885 | one attempt: the round tripper called once, with the body given, a custom retry condition asked once unless the caller gave up, the peer given back once |
| `RoundTrip.Produce` | transport.go:827-836 | a body is produced anew for an attempt exactly in the modes that replay; a failure is on record |
| `RoundTrip.Proceed` | transport.go:827-836 | an attempt goes out with a body no earlier one had, where bodies are replayed; if none can be produced the peer is given back neutrally and the call ends |
| `RoundTrip.NoWhere` | transport.go:805-810 | a peer without an address is given back neutrally, what is held is closed, and the call ends |
| `RoundTrip.TryPicked` | transport.go:805-895 | a picked peer is given back exactly once on every path |
| `RoundTrip.PickAndTry` | transport.go:797-895 | exhaustion returns the last attempt's result, says that no peer was available exactly when there was no attempt, and means the Pick found everything consulted barren |
| `RoundTrip.StreamReadOnce` | transport.go:986-991 | a request that may not be replayed is sent and read at most once, in the last attempt, whatever the retry condition wants |
| `RoundTrip.Serve` | transport.go:733-897 | the whole call: one call of the round tripper per attempt, to its peer, the k-th answer and the custom condition's opinion of it explaining the k-th attempt; every peer picked given back exactly once with its attempt's outcome and nothing done in anyone else's name; every body and cancel spent exactly once but for what is returned; the result explained by the last attempt or the reason for giving up; at most one attempt per usable peer; where bodies are replayed the k-th attempt has the k-th body produced, no two share one and none is produced in vain, and elsewhere none is produced; the caller's context is looked at before every Pick and after every error, and having given up ends the call; streaming bodies consumed at most once; others are at work between any two critical sections |

## Left out

- HTTP plumbing: URL and Host rewriting, TLS names, dialers, trace hooks, request validation before the loop. An attempt is an arbitrary reply with a flag for the write hooks.
- The methods of `RoundTrip.Outside`, `Pickers.TryFunc`, `Random.Dice` and `Peers.OtherRequests` stand for code outside the repository and for other requests. Callers rely on their contracts only; their bodies are one behaviour among those allowed.
- Option constructors, configuration checks, error joining and the nil checks of `PickOne`, `PickResult` and `PickWithRetry`: single-branch checks.
- Request body preparation beyond the choice of mode: seeking, content lengths, reading into memory, spilling to a temporary file, and closing the request body. Failure to produce a body for an attempt is modelled, as an arbitrary event.
- `clientIP` and header extraction: the address octets are an input, empty when there is no usable address.
- CRC-32, decimal notation and `splitKetamaHostPort`: functions or seed bytes given as parameters; nothing proved depends on what they are.
- `sort.SliceStable` and `sort.Search` are library code; an insertion sort and a binary search stand for them.
- Statistical claims about random choice and the share of keys moved. What is proved is counting and disruption.
- Custom balancers and pickers. Termination and no-repeat are claimed of the built-in ones.
- Bounds on current weights while the eligible set keeps changing. Conservation and the bounded wait for a fixed set are proved.
- Machine integers: counters, weights, products of weights and instants are unbounded, except the 32-bit hashes; saturation of time differences is not modelled.
- `Peers.Peer.constructor`: a peer's configuration is fixed when it is created, so passing the same peer to two balancers, which would initialise it again while in use, is not captured.
- Peer groups are values: their lists do not change once built. Locks are implicit in what is one critical section.
- Eligibility closures are evaluated to a set before the pass. They read nothing the pass writes, so the order makes no difference.
- Branches the proofs show unreachable (a weighted walk that falls through, a random draw from no weight) have no counterpart.
