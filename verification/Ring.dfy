/**
  The ketama ring of chash.go: chained point generation, stable sort, in-place
  compaction, successor search, and minimal disruption when the servers change.
*/
module Ring {
  import opened HashFamily

  const REPLICAS: nat := 160

  datatype Point<P> = Point(hash: Uint32, peer: P)

  /** A server on the ring: its identity, the bytes its chain is seeded with (host, zero, port), and its weight. */
  datatype Entry<P> = Entry(peer: P, seed: seq<Byte>, weight: int)

  function LittleEndian(h: Uint32): seq<Byte> {
    [h % 256, (h / 256) % 256, (h / 0x1_0000) % 256, (h / 0x100_0000) % 256]
  }

  // ---------- Generation ----------

  /** Point number `j` of a seed: the CRC of the seed followed by the previous point. */
  function Chained(crc: seq<Byte> -> Uint32, seed: seq<Byte>, j: nat): Uint32 {
    crc(seed + LittleEndian(if j == 0 then 0 else Chained(crc, seed, j - 1)))
  }

  function PointsOf<P>(crc: seq<Byte> -> Uint32, e: Entry<P>, n: nat): seq<Point<P>> {
    seq(n, j requires 0 <= j < n => Point(Chained(crc, e.seed, j), e.peer))
  }

  /** The number that four bytes spell, the least significant first. */
  function Spelt(b: seq<Byte>): int
    requires |b| == 4
  {
    var n: seq<int> := b;
    n[0] + 0x100 * (n[1] + 0x100 * (n[2] + 0x100 * n[3]))
  }

  lemma LittleEndianSpells(h: Uint32)
    ensures Spelt(LittleEndian(h)) == h
  {
    assert h / 0x1_0000 == h / 256 / 256 && h / 0x100_0000 == h / 256 / 256 / 256;
  }

  /** Each point of a server is the checksum of its seed and four bytes that spell the point before it, the first of all zero. */
  lemma PointsAreChained<P>(crc: seq<Byte> -> Uint32, e: Entry<P>, n: nat, j: nat) returns (bytes: seq<Byte>)
    requires j < n
    ensures |PointsOf(crc, e, n)| == n && PointsOf(crc, e, n)[j] == Point(crc(e.seed + bytes), e.peer)
    ensures |bytes| == 4 && Spelt(bytes) == if j == 0 then 0 else PointsOf(crc, e, n)[j - 1].hash
  {
    var prev := if j == 0 then 0 else Chained(crc, e.seed, j - 1);
    LittleEndianSpells(prev);
    bytes := LittleEndian(prev);
  }

  function PointCount<P>(e: Entry<P>): nat {
    if e.weight <= 0 then 0 else e.weight * REPLICAS
  }

  function Generate<P>(crc: seq<Byte> -> Uint32, es: seq<Entry<P>>): seq<Point<P>> {
    if es == [] then []
    else
      var e := es[|es| - 1];
      Generate(crc, es[..|es| - 1]) + PointsOf(crc, e, PointCount(e))
  }

  // ---------- Which points carry a hash ----------

  /** The points with hash `h`, in order. */
  ghost function With<P>(s: seq<Point<P>>, h: int): seq<Point<P>> {
    if s == [] then []
    else With(s[..|s| - 1], h) + if s[|s| - 1].hash == h then [s[|s| - 1]] else []
  }

  lemma {:induction false} WithMember<P>(s: seq<Point<P>>, h: int)
    ensures With(s, h) != [] <==> exists i :: 0 <= i < |s| && s[i].hash == h
  {
    if s != [] {
      WithMember(s[..|s| - 1], h);
      assert s[|s| - 1].hash == h ==> exists i :: 0 <= i < |s| && s[i].hash == h;
    }
  }

  ghost predicate Sorted<P>(s: seq<Point<P>>) {
    forall i, j :: 0 <= i < j < |s| ==> s[i].hash <= s[j].hash
  }

  ghost predicate Ascending<P>(s: seq<Point<P>>) {
    forall i, j :: 0 <= i < j < |s| ==> s[i].hash < s[j].hash
  }

  // ---------- Stable sort ----------

  /** Insert a point after everything that is not above it. */
  function Insert<P>(s: seq<Point<P>>, p: Point<P>): seq<Point<P>> {
    if s == [] || s[|s| - 1].hash <= p.hash then s + [p]
    else Insert(s[..|s| - 1], p) + [s[|s| - 1]]
  }

  function StableSort<P>(s: seq<Point<P>>): seq<Point<P>> {
    if s == [] then [] else Insert(StableSort(s[..|s| - 1]), s[|s| - 1])
  }

  lemma {:induction false} InsertSorts<P>(s: seq<Point<P>>, p: Point<P>)
    requires Sorted(s)
    ensures Sorted(Insert(s, p)) && |Insert(s, p)| == |s| + 1
    ensures forall q :: q in Insert(s, p) ==> q == p || q in s
  {
    if s != [] && s[|s| - 1].hash > p.hash {
      InsertSorts(s[..|s| - 1], p);
      var front := Insert(s[..|s| - 1], p);
      forall i | 0 <= i < |front| ensures front[i].hash <= s[|s| - 1].hash {
        assert front[i] in front;
      }
    }
  }

  lemma {:induction false} InsertStably<P>(s: seq<Point<P>>, p: Point<P>, h: int)
    ensures With(Insert(s, p), h) == With(s, h) + if p.hash == h then [p] else []
  {
    var t := Insert(s, p);
    if s == [] || s[|s| - 1].hash <= p.hash {
      assert t[..|s|] == s;
    } else {
      InsertStably(s[..|s| - 1], p, h);
      assert t[..|t| - 1] == Insert(s[..|s| - 1], p);
    }
  }

  /** The sort is a sort, and a stable one: points of equal hash keep their order of generation. */
  lemma {:induction false} StableSortIsStable<P>(s: seq<Point<P>>, h: int)
    ensures Sorted(StableSort(s)) && |StableSort(s)| == |s|
    ensures With(StableSort(s), h) == With(s, h)
  {
    if s != [] {
      StableSortIsStable(s[..|s| - 1], h);
      InsertSorts(StableSort(s[..|s| - 1]), s[|s| - 1]);
      InsertStably(StableSort(s[..|s| - 1]), s[|s| - 1], h);
    }
  }

  // ---------- Deduplication ----------

  function Dedupe<P>(s: seq<Point<P>>): (d: seq<Point<P>>)
    ensures |d| <= |s| && (s != [] ==> d != [] && d[|d| - 1].hash == s[|s| - 1].hash)
  {
    if s == [] then []
    else
      var d := Dedupe(s[..|s| - 1]);
      if d == [] || d[|d| - 1].hash != s[|s| - 1].hash then d + [s[|s| - 1]] else d
  }

  /** `r` is the ring of the generated points `g`: ascending, with exactly their hashes, each owned by the first to generate it. */
  ghost predicate IsRing<P>(r: seq<Point<P>>, g: seq<Point<P>>) {
    && Ascending(r)
    && (forall i :: 0 <= i < |r| ==> With(g, r[i].hash) != [] && r[i] == With(g, r[i].hash)[0])
    && (forall i :: 0 <= i < |g| ==> exists j :: 0 <= j < |r| && r[j].hash == g[i].hash)
  }

  lemma EmptyRing<P>()
    ensures IsRing<P>(Dedupe([]), [])
  {
  }

  /** A point above all the others goes on the ring. */
  lemma RingGrows<P>(r: seq<Point<P>>, g: seq<Point<P>>, p: Point<P>)
    requires IsRing(r, g) && forall i :: 0 <= i < |g| ==> g[i].hash < p.hash
    ensures IsRing(r + [p], g + [p])
  {
    var r', g' := r + [p], g + [p];
    assert g'[..|g|] == g;
    WithMember(g, p.hash);
    forall i | 0 <= i < |r| ensures r[i].hash < p.hash {
      WithMember(g, r[i].hash);
    }
    forall i | 0 <= i < |g'| ensures exists j :: 0 <= j < |r'| && r'[j].hash == g'[i].hash {
      if i < |g| {
        var j :| 0 <= j < |r| && r[j].hash == g[i].hash;
        assert r'[j].hash == g'[i].hash;
      } else {
        assert r'[|r|].hash == g'[i].hash;
      }
    }
  }

  /** A point whose hash is taken leaves the ring as it is. */
  lemma RingIgnores<P>(r: seq<Point<P>>, g: seq<Point<P>>, p: Point<P>)
    requires IsRing(r, g) && r != [] && r[|r| - 1].hash == p.hash
    ensures IsRing(r, g + [p])
  {
    assert (g + [p])[..|g|] == g;
  }

  lemma SortedFront<P>(s: seq<Point<P>>)
    requires Sorted(s) && s != []
    ensures var front, last := s[..|s| - 1], s[|s| - 1];
            && Sorted(front)
            && (front == [] || front[|front| - 1].hash != last.hash ==> forall i :: 0 <= i < |front| ==> front[i].hash < last.hash)
  {
  }

  lemma DedupeStep<P>(s: seq<Point<P>>)
    requires s != []
    ensures var front, last := s[..|s| - 1], s[|s| - 1];
            && s == front + [last]
            && Dedupe(s) == if front == [] || front[|front| - 1].hash != last.hash then Dedupe(front) + [last] else Dedupe(front)
  {
  }

  lemma {:induction false} DedupeSorted<P>(s: seq<Point<P>>)
    requires Sorted(s)
    ensures IsRing(Dedupe(s), s)
  {
    hide IsRing;
    hide Dedupe;
    hide Sorted;
    if s == [] {
      EmptyRing<P>();
    } else {
      var front, last := s[..|s| - 1], s[|s| - 1];
      SortedFront(s);
      DedupeStep(s);
      DedupeSorted(front);
      if front == [] || front[|front| - 1].hash != last.hash {
        RingGrows(Dedupe(front), front, last);
      } else {
        RingIgnores(Dedupe(front), front, last);
      }
    }
  }

  function RingOf<P>(g: seq<Point<P>>): seq<Point<P>> {
    Dedupe(StableSort(g))
  }

  /** Ring construction is correct, collisions included. */
  lemma RingIsRing<P>(g: seq<Point<P>>)
    ensures IsRing(RingOf(g), g)
  {
    var s := StableSort(g);
    forall h: int ensures With(s, h) == With(g, h) {
      StableSortIsStable(g, h);
    }
    StableSortIsStable(g, 0);
    DedupeSorted(s);
    var r := RingOf(g);
    forall i | 0 <= i < |g| ensures exists j :: 0 <= j < |r| && r[j].hash == g[i].hash {
      WithMember(g, g[i].hash);
      WithMember(s, g[i].hash);
      assert With(s, g[i].hash) != [];
      var k :| 0 <= k < |s| && s[k].hash == g[i].hash;
    }
  }

  /** The layout is reproducible: the points determine the ring. */
  lemma {:induction false} RingUnique<P>(r: seq<Point<P>>, r': seq<Point<P>>, g: seq<Point<P>>)
    requires IsRing(r, g) && IsRing(r', g)
    ensures r == r'
  {
    forall i | 0 <= i < |r| && i < |r'| ensures r[i] == r'[i] {
      SameAt(r, r', g, i);
    }
    if |r| < |r'| {
      var j := Reaches(r', r, g, |r|);
    } else if |r'| < |r| {
      var j := Reaches(r, r', g, |r'|);
    }
  }

  lemma {:induction false} SameAt<P>(r: seq<Point<P>>, r': seq<Point<P>>, g: seq<Point<P>>, i: nat)
    requires IsRing(r, g) && IsRing(r', g) && i < |r| && i < |r'|
    ensures r[i] == r'[i]
    decreases i
  {
    forall k | 0 <= k < i ensures r[k] == r'[k] {
      SameAt(r, r', g, k);
    }
    var a := Reaches(r, r', g, i);
    var b := Reaches(r', r, g, i);
  }

  /** Every point of one ring is found on the other. */
  lemma Reaches<P>(r: seq<Point<P>>, r': seq<Point<P>>, g: seq<Point<P>>, i: nat) returns (j: nat)
    requires IsRing(r, g) && IsRing(r', g) && i < |r|
    requires forall k :: 0 <= k < i && k < |r'| ==> r[k] == r'[k]
    ensures i <= j < |r'| && r'[j].hash == r[i].hash
  {
    WithMember(g, r[i].hash);
    var k :| 0 <= k < |g| && g[k].hash == r[i].hash;
    j :| 0 <= j < |r'| && r'[j].hash == g[k].hash;
    assert forall k :: 0 <= k < i && k < |r'| ==> r'[k].hash < r[i].hash;
  }

  // ---------- Lookup ----------

  /** The first point not below the key, or the first point of all when the key is above every one. */
  ghost predicate IsStart<P>(r: seq<Point<P>>, key: int, i: nat) {
    && i < |r|
    && if r[|r| - 1].hash < key then i == 0
       else r[i].hash >= key && forall j :: 0 <= j < i ==> r[j].hash < key
  }

  /** Binary search for the successor of a key on the ring. */
  method FindStart<P>(r: seq<Point<P>>, key: Uint32) returns (idx: nat)
    requires Ascending(r) && r != []
    ensures IsStart(r, key, idx)
  {
    var lo, hi := 0, |r|;
    while lo < hi
      invariant 0 <= lo <= hi <= |r|
      invariant forall j :: 0 <= j < lo ==> r[j].hash < key
      invariant forall j :: hi <= j < |r| ==> r[j].hash >= key
    {
      var mid := (lo + hi) / 2;
      if r[mid].hash >= key {
        hi := mid;
      } else {
        lo := mid + 1;
      }
    }
    idx := if lo == |r| then 0 else lo;
  }

  /** Independently of any ring: `h` is the hash that serves `key` among the generated points, going clockwise. */
  ghost predicate Serves<P>(g: seq<Point<P>>, key: int, h: int) {
    && With(g, h) != []
    && if h >= key then forall i :: 0 <= i < |g| && g[i].hash >= key ==> h <= g[i].hash
       else forall i :: 0 <= i < |g| ==> g[i].hash < key && h <= g[i].hash
  }

  /** The key goes to the first peer that generated the serving hash. */
  ghost predicate Owner<P>(g: seq<Point<P>>, key: int, p: Point<P>) {
    Serves(g, key, p.hash) && p == With(g, p.hash)[0]
  }

  lemma OwnerUnique<P>(g: seq<Point<P>>, key: int, p: Point<P>, q: Point<P>)
    requires Owner(g, key, p) && Owner(g, key, q)
    ensures p == q
  {
    WithMember(g, p.hash);
    WithMember(g, q.hash);
  }

  /** Looking a key up on the ring finds its owner. */
  lemma StartIsOwner<P>(r: seq<Point<P>>, g: seq<Point<P>>, key: int, i: nat)
    requires IsRing(r, g) && IsStart(r, key, i)
    ensures Owner(g, key, r[i])
  {
    var h := r[i].hash;
    forall k | 0 <= k < |g|
      ensures if h >= key then g[k].hash >= key ==> h <= g[k].hash else g[k].hash < key && h <= g[k].hash
    {
      var j :| 0 <= j < |r| && r[j].hash == g[k].hash;
    }
  }

  // ---------- Minimal disruption ----------

  /** `g'` is `g` with some of `p`'s points deleted and nothing else touched. */
  ghost predicate Drops<P>(g: seq<Point<P>>, g': seq<Point<P>>, p: P) {
    if g == [] then g' == []
    else
      || (g[|g| - 1].peer == p && Drops(g[..|g| - 1], g', p))
      || (g' != [] && g'[|g'| - 1] == g[|g| - 1] && Drops(g[..|g| - 1], g'[..|g'| - 1], p))
  }

  /** Deleting `p`'s points adds no hash, and keeps whoever generated a hash first if that was not `p`. */
  lemma {:induction false} DropsKeepsFirst<P>(g: seq<Point<P>>, g': seq<Point<P>>, p: P, h: int)
    requires Drops(g, g', p)
    ensures With(g', h) != [] ==> With(g, h) != []
    ensures With(g, h) != [] && With(g, h)[0].peer != p ==> With(g', h) != [] && With(g', h)[0] == With(g, h)[0]
  {
    if g != [] {
      var front := g[..|g| - 1];
      if g[|g| - 1].peer == p && Drops(front, g', p) {
        DropsKeepsFirst(front, g', p, h);
      } else {
        DropsKeepsFirst(front, g'[..|g'| - 1], p, h);
      }
    }
  }

  /**
    Minimal disruption, for any hash function: deleting points of one peer leaves
    every key that this peer did not own with its owner.  Read the other way round,
    adding points of one peer moves keys to that peer only.
  */
  lemma OwnersSurvive<P>(g: seq<Point<P>>, g': seq<Point<P>>, p: P, key: int, o: Point<P>)
    requires Drops(g, g', p) && Owner(g, key, o) && o.peer != p
    ensures Owner(g', key, o)
  {
    var h := o.hash;
    DropsKeepsFirst(g, g', p, h);
    forall i | 0 <= i < |g'|
      ensures if h >= key then g'[i].hash >= key ==> h <= g'[i].hash else g'[i].hash < key && h <= g'[i].hash
    {
      WithMember(g', g'[i].hash);
      DropsKeepsFirst(g, g', p, g'[i].hash);
      WithMember(g, g'[i].hash);
    }
  }

  lemma {:induction false} DropsNothing<P>(g: seq<Point<P>>, p: P)
    ensures Drops(g, g, p)
  {
    if g != [] {
      DropsNothing(g[..|g| - 1], p);
    }
  }

  lemma {:induction false} DropsThenSame<P>(g: seq<Point<P>>, g': seq<Point<P>>, tail: seq<Point<P>>, p: P)
    requires Drops(g, g', p)
    ensures Drops(g + tail, g' + tail, p)
  {
    if tail == [] {
      assert g + tail == g && g' + tail == g';
    } else {
      var front := tail[..|tail| - 1];
      DropsThenSame(g, g', front, p);
      assert (g + tail)[..|g + tail| - 1] == g + front && (g' + tail)[..|g' + tail| - 1] == g' + front;
    }
  }

  /** A shorter chain of the same seed is a prefix, so lowering a weight deletes points from the end of a run. */
  lemma {:induction false} DropsTail<P>(crc: seq<Byte> -> Uint32, g: seq<Point<P>>, e: Entry<P>, n: nat, n': nat)
    requires n' <= n
    ensures Drops(g + PointsOf(crc, e, n), g + PointsOf(crc, e, n'), e.peer)
    decreases n
  {
    var long := g + PointsOf(crc, e, n);
    if n == n' {
      DropsNothing(long, e.peer);
    } else {
      DropsTail(crc, g, e, n - 1, n');
      assert long[..|long| - 1] == g + PointsOf(crc, e, n - 1);
    }
  }

  /** Lowering the weight of server `k`, to zero if need be, only deletes points of server `k`. */
  lemma {:induction false} LoweringDrops<P>(crc: seq<Byte> -> Uint32, es: seq<Entry<P>>, k: nat, w: int)
    requires k < |es| && w <= es[k].weight
    ensures Drops(Generate(crc, es), Generate(crc, es[k := es[k].(weight := w)]), es[k].peer)
  {
    var es', last := es[k := es[k].(weight := w)], |es| - 1;
    if k == last {
      assert es'[..last] == es[..last];
      DropsTail(crc, Generate(crc, es[..last]), es[k], PointCount(es[k]), PointCount(es'[k]));
      assert PointsOf(crc, es'[k], PointCount(es'[k])) == PointsOf(crc, es[k], PointCount(es'[k]));
    } else {
      LoweringDrops(crc, es[..last], k, w);
      assert es'[..last] == es[..last][k := es[k].(weight := w)];
      DropsThenSame(Generate(crc, es[..last]), Generate(crc, es'[..last]),
                    PointsOf(crc, es[last], PointCount(es[last])), es[k].peer);
    }
  }

  /** Removing a server generates the same points as keeping it without weight. */
  lemma {:induction false} RemovedIsWeightless<P>(crc: seq<Byte> -> Uint32, es: seq<Entry<P>>, k: nat, w: int)
    requires k < |es| && w <= 0
    ensures Generate(crc, es[..k] + es[k + 1..]) == Generate(crc, es[k := es[k].(weight := w)])
  {
    var gone, idle, last := es[..k] + es[k + 1..], es[k := es[k].(weight := w)], |es| - 1;
    if k == last {
      assert gone == es[..last] == idle[..last];
    } else {
      RemovedIsWeightless(crc, es[..last], k, w);
      assert gone[..|gone| - 1] == es[..last][..k] + es[..last][k + 1..];
      assert idle[..last] == es[..last][k := es[k].(weight := w)];
    }
  }

  /** Minimal disruption on rings: a key keeps its very point unless `p` served it. */
  lemma PointsSurvive<P>(g: seq<Point<P>>, g': seq<Point<P>>, r: seq<Point<P>>, r': seq<Point<P>>, p: P, key: int, i: nat)
    requires Drops(g, g', p) && IsRing(r, g) && IsRing(r', g') && IsStart(r, key, i) && r[i].peer != p
    ensures exists j: nat :: IsStart(r', key, j) && r'[j] == r[i]
  {
    hide Owner;
    hide IsRing;
    hide Drops;
    StartIsOwner(r, g, key, i);
    OwnersSurvive(g, g', p, key, r[i]);
    RingNotEmpty(r', g', key, r[i]);
    var j := StartExists(r', key);
    StartIsOwner(r', g', key, j);
    OwnerUnique(g', key, r[i], r'[j]);
  }

  /**
    The consistent-hashing theorem on built rings.  Compare the ring of `es` with the
    ring after server `k`'s weight is lowered: a key either keeps its very point, or
    was served by server `k` on the heavier ring.  So lowering or removing a server
    moves only its own keys, and raising or adding one moves keys only to it.
  */
  lemma RingsDifferOnlyAtServer<P>(crc: seq<Byte> -> Uint32, es: seq<Entry<P>>, k: nat, w: int,
                                   heavy: seq<Point<P>>, light: seq<Point<P>>, key: Uint32, i: nat)
    requires k < |es| && w <= es[k].weight
    requires IsRing(heavy, Generate(crc, es)) && IsRing(light, Generate(crc, es[k := es[k].(weight := w)]))
    requires IsStart(heavy, key, i)
    ensures heavy[i].peer == es[k].peer || exists j: nat :: IsStart(light, key, j) && light[j] == heavy[i]
  {
    hide IsRing;
    LoweringDrops(crc, es, k, w);
    if heavy[i].peer != es[k].peer {
      PointsSurvive(Generate(crc, es), Generate(crc, es[k := es[k].(weight := w)]), heavy, light, es[k].peer, key, i);
    }
  }

  /** The same with server `k` removed altogether. */
  lemma RemovalMovesOnlyItsKeys<P>(crc: seq<Byte> -> Uint32, es: seq<Entry<P>>, k: nat,
                                   full: seq<Point<P>>, rest: seq<Point<P>>, key: Uint32, i: nat)
    requires k < |es|
    requires IsRing(full, Generate(crc, es)) && IsRing(rest, Generate(crc, es[..k] + es[k + 1..]))
    requires IsStart(full, key, i)
    ensures full[i].peer == es[k].peer || exists j: nat :: IsStart(rest, key, j) && rest[j] == full[i]
  {
    hide IsRing;
    var w := if es[k].weight < 0 then es[k].weight else 0;
    RemovedIsWeightless(crc, es, k, w);
    RingsDifferOnlyAtServer(crc, es, k, w, full, rest, key, i);
  }

  lemma RingNotEmpty<P>(r: seq<Point<P>>, g: seq<Point<P>>, key: int, o: Point<P>)
    requires IsRing(r, g) && Owner(g, key, o)
    ensures r != [] && Ascending(r)
  {
    WithMember(g, o.hash);
  }

  lemma StartExists<P>(r: seq<Point<P>>, key: int) returns (i: nat)
    requires Ascending(r) && r != []
    ensures IsStart(r, key, i)
  {
    i := 0;
    if r[|r| - 1].hash >= key {
      while r[i].hash < key
        invariant i < |r| && forall j :: 0 <= j < i ==> r[j].hash < key
        decreases |r| - i
      {
        i := i + 1;
      }
    }
  }

  lemma StartUnique<P>(r: seq<Point<P>>, key: int, i: nat, j: nat)
    requires Ascending(r) && IsStart(r, key, i) && IsStart(r, key, j)
    ensures i == j
  {
  }

  /** Both together, at the points the key is looked up at. */
  lemma LookupsDifferOnlyAtServer<P>(crc: seq<Byte> -> Uint32, es: seq<Entry<P>>, es': seq<Entry<P>>, k: nat, w: int,
                                     heavy: seq<Point<P>>, light: seq<Point<P>>, key: Uint32, i: nat, j: nat)
    requires k < |es| && w <= es[k].weight
    requires es' == es[k := es[k].(weight := w)] || es' == es[..k] + es[k + 1..]
    requires IsRing(heavy, Generate(crc, es)) && IsRing(light, Generate(crc, es'))
    requires IsStart(heavy, key, i) && IsStart(light, key, j)
    ensures heavy[i].peer == es[k].peer || light[j] == heavy[i]
  {
    assert Ascending(light);
    hide IsRing;
    if es' == es[k := es[k].(weight := w)] {
      RingsDifferOnlyAtServer(crc, es, k, w, heavy, light, key, i);
    } else {
      RemovalMovesOnlyItsKeys(crc, es, k, heavy, light, key, i);
    }
    if heavy[i].peer != es[k].peer {
      var n: nat :| IsStart(light, key, n) && light[n] == heavy[i];
      StartUnique(light, key, n, j);
    }
  }

  // ---------- Rings by another name ----------

  function Relabel<P, Q>(s: seq<Point<P>>, f: P -> Q): (t: seq<Point<Q>>)
    ensures |t| == |s|
  {
    seq(|s|, i requires 0 <= i < |s| => Point(s[i].hash, f(s[i].peer)))
  }

  function Renamed<P, Q>(es: seq<Entry<P>>, f: P -> Q): (t: seq<Entry<Q>>)
    ensures |t| == |es|
  {
    seq(|es|, i requires 0 <= i < |es| => Entry(f(es[i].peer), es[i].seed, es[i].weight))
  }

  lemma RelabelStart<P, Q>(s: seq<Point<P>>, f: P -> Q, key: int, i: nat)
    requires IsStart(s, key, i)
    ensures IsStart(Relabel(s, f), key, i) && Relabel(s, f)[i].peer == f(s[i].peer)
  {
  }

  lemma {:induction false} RelabelWith<P, Q>(s: seq<Point<P>>, f: P -> Q, h: int)
    ensures With(Relabel(s, f), h) == Relabel(With(s, h), f)
  {
    if s != [] {
      RelabelWith(s[..|s| - 1], f, h);
      assert Relabel(s, f)[..|s| - 1] == Relabel(s[..|s| - 1], f);
    }
  }

  /** A ring of peers is also the ring of their names. */
  lemma RelabelRing<P, Q>(r: seq<Point<P>>, g: seq<Point<P>>, f: P -> Q)
    requires IsRing(r, g)
    ensures IsRing(Relabel(r, f), Relabel(g, f))
  {
    var r', g' := Relabel(r, f), Relabel(g, f);
    forall i | 0 <= i < |r'| ensures With(g', r'[i].hash) != [] && r'[i] == With(g', r'[i].hash)[0] {
      RelabelWith(g, f, r[i].hash);
    }
    forall i | 0 <= i < |g'| ensures exists j :: 0 <= j < |r'| && r'[j].hash == g'[i].hash {
      var j :| 0 <= j < |r| && r[j].hash == g[i].hash;
      assert r'[j].hash == g'[i].hash;
    }
  }

  lemma {:induction false} RelabelGenerate<P, Q>(crc: seq<Byte> -> Uint32, es: seq<Entry<P>>, f: P -> Q)
    ensures Relabel(Generate(crc, es), f) == Generate(crc, Renamed(es, f))
  {
    if es != [] {
      var front, last := es[..|es| - 1], es[|es| - 1];
      RelabelGenerate(crc, front, f);
      assert Renamed(es, f)[..|es| - 1] == Renamed(front, f);
      assert Relabel(PointsOf(crc, last, PointCount(last)), f) == PointsOf(crc, Renamed(es, f)[|es| - 1], PointCount(last));
    }
  }

  // ---------- The code ----------

  lemma DedupeNext<P>(s: seq<Point<P>>, i: nat)
    requires 1 <= i < |s|
    ensures var d := Dedupe(s[..i]);
            Dedupe(s[..i + 1]) == if d[|d| - 1].hash != s[i].hash then d + [s[i]] else d
  {
    assert s[..i + 1][..i] == s[..i];
  }

  /** In-place compaction: the write index never passes the read index, so no unread point is overwritten. */
  method Compact<P>(pts: array<Point<P>>) returns (n: nat)
    modifies pts
    ensures n <= pts.Length && pts[..n] == Dedupe(old(pts[..]))
  {
    ghost var all := pts[..];
    if pts.Length == 0 {
      return 0;
    }
    n := 1;
    assert pts[..1] == Dedupe(all[..1]);
    hide Dedupe;
    for i := 1 to pts.Length
      invariant 1 <= n <= i && pts[..n] == Dedupe(all[..i])
      invariant forall j :: i <= j < pts.Length ==> pts[j] == all[j]
    {
      DedupeNext(all, i);
      if pts[i].hash != pts[n - 1].hash {
        pts[n] := pts[i];
        n := n + 1;
        assert pts[..n] == pts[..n - 1] + [all[i]];
      }
    }
    assert all[..pts.Length] == all;
  }

  /** One server's chain of points; the previous point's bytes replace each other at the end of the buffer. */
  method AppendPoints<P>(crc: seq<Byte> -> Uint32, e: Entry<P>, start: seq<Point<P>>) returns (pts: seq<Point<P>>)
    requires e.weight > 0
    ensures pts == start + PointsOf(crc, e, PointCount(e))
  {
    pts := start;
    var prev: Uint32 := 0;
    var count := e.weight * REPLICAS;
    for j := 0 to count
      invariant prev == if j == 0 then 0 else Chained(crc, e.seed, j - 1)
      invariant pts == start + PointsOf(crc, e, j)
    {
      var h := crc(e.seed + LittleEndian(prev));
      pts := pts + [Point(h, e.peer)];
      prev := h;
    }
  }

  /** buildChashRing: generate, sort, compact. */
  method BuildRing<P>(crc: seq<Byte> -> Uint32, es: seq<Entry<P>>) returns (ring: seq<Point<P>>)
    ensures ring == RingOf(Generate(crc, es)) && IsRing(ring, Generate(crc, es))
  {
    hide IsRing;
    var pts: seq<Point<P>> := [];
    for k := 0 to |es|
      invariant pts == Generate(crc, es[..k])
    {
      assert es[..k + 1][..k] == es[..k];
      if es[k].weight > 0 {
        pts := AppendPoints(crc, es[k], pts);
      }
    }
    assert es[..|es|] == es;
    var sorted := StableSort(pts);
    var buffer := new Point<P>[|sorted|](i requires 0 <= i < |sorted| => sorted[i]);
    assert buffer[..] == sorted;
    var n := Compact(buffer);
    ring := buffer[..n];
    RingIsRing(pts);
  }
}
