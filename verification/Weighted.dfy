/**
  Weighted choice of a peer from a number below the total weight: the subtracting
  walk of hash.go and iphash.go, and the binary search of random.go.
*/
module Weighted {
  import opened Sums
  import opened Peers

  /** The weight of the first `i` peers. */
  ghost function Before(ws: seq<int>, i: nat): int
    requires i <= |ws|
  {
    Sum(ws[..i])
  }

  lemma BeforeAll(ws: seq<int>)
    ensures Before(ws, 0) == 0 && Before(ws, |ws|) == Sum(ws)
  {
    assert ws[..|ws|] == ws;
  }

  /** Peer `i` owns the numbers from the weights before it up to, excluding, its own added. */
  ghost predicate Owns(ws: seq<int>, i: nat, x: int) {
    i < |ws| && Before(ws, i) <= x < Before(ws, i + 1)
  }

  lemma PrefixNext(ws: seq<int>, i: nat)
    requires i < |ws|
    ensures Before(ws, i + 1) == Before(ws, i) + ws[i]
  {
    assert ws[..i + 1][..i] == ws[..i];
  }

  lemma {:induction false} PrefixMonotone(ws: seq<int>, i: nat, j: nat)
    requires i <= j <= |ws| && forall k :: 0 <= k < |ws| ==> ws[k] >= 0
    ensures Before(ws, i) <= Before(ws, j)
  {
    if i < j {
      PrefixMonotone(ws, i, j - 1);
      PrefixNext(ws, j - 1);
    }
  }

  lemma OwnerUnique(ws: seq<int>, i: nat, j: nat, x: int)
    requires (forall k :: 0 <= k < |ws| ==> ws[k] >= 0) && Owns(ws, i, x) && Owns(ws, j, x)
    ensures i == j
  {
    hide Before;
    if i < j {
      PrefixMonotone(ws, i + 1, j);
    } else if j < i {
      PrefixMonotone(ws, j + 1, i);
    }
  }

  lemma {:induction false} OwnerExists(ws: seq<int>, n: nat, x: int)
    requires n <= |ws| && 0 <= x < Before(ws, n)
    ensures exists i: nat :: Owns(ws, i, x)
  {
    PrefixNext(ws, n - 1);
    if x >= Before(ws, n - 1) {
      assert Owns(ws, n - 1, x);
    } else {
      OwnerExists(ws, n - 1, x);
    }
  }

  ghost function OwnerOf(ws: seq<int>, x: int): (i: nat)
    requires 0 <= x < Sum(ws)
    ensures Owns(ws, i, x)
  {
    BeforeAll(ws);
    OwnerExists(ws, |ws|, x);
    var i: nat :| Owns(ws, i, x);
    i
  }

  ghost function Interval(lo: int, hi: int): (s: set<int>)
    requires lo <= hi
    ensures |s| == hi - lo && forall x :: x in s <==> lo <= x < hi
    decreases hi - lo
  {
    if lo == hi then {} else Interval(lo, hi - 1) + {hi - 1}
  }

  /** Fair shares: of the numbers below the total, exactly `ws[i]` choose peer `i`. */
  lemma ShareIsWeight(ws: seq<int>, i: nat)
    requires i < |ws| && forall k :: 0 <= k < |ws| ==> ws[k] >= 0
    ensures |set x | 0 <= x < Sum(ws) && OwnerOf(ws, x) == i| == ws[i]
  {
    var lo, hi := Before(ws, i), Before(ws, i + 1);
    PrefixNext(ws, i);
    PrefixMonotone(ws, 0, i);
    PrefixMonotone(ws, i + 1, |ws|);
    BeforeAll(ws);
    forall x | lo <= x < hi ensures 0 <= x < Sum(ws) && OwnerOf(ws, x) == i {
      OwnerUnique(ws, i, OwnerOf(ws, x), x);
    }
    assert (set x | 0 <= x < Sum(ws) && OwnerOf(ws, x) == i) == Interval(lo, hi);
  }

  /** Subtract weights until the number goes negative.  It falls through exactly when the number is too large. */
  method LinearWalk(peers: seq<Peer>, x: int) returns (selected: Peer?)
    requires (forall p :: p in peers ==> p.cfg.weight >= 1) && x >= 0
    ensures selected == null <==> x >= Sum(WeightsOf(peers))
    ensures x < Sum(WeightsOf(peers)) ==> selected == peers[OwnerOf(WeightsOf(peers), x)]
  {
    hide Before;
    ghost var ws := WeightsOf(peers);
    BeforeAll(ws);
    var w := x;
    for n := 0 to |peers|
      invariant w == x - Before(ws, n) >= 0
    {
      PrefixNext(ws, n);
      w := w - peers[n].cfg.weight;
      if w < 0 {
        PrefixMonotone(ws, n + 1, |ws|);
        OwnerUnique(ws, n, OwnerOf(ws, x), x);
        return peers[n];
      }
    }
    return null;
  }

  /** A peer and the exclusive upper end of the numbers it owns. */
  datatype Range = Range(peer: Peer, upper: int)

  ghost predicate RangesOf(ranges: seq<Range>, peers: seq<Peer>) {
    && |ranges| == |peers|
    && forall i :: 0 <= i < |peers| ==> ranges[i] == Range(peers[i], Before(WeightsOf(peers), i + 1))
  }

  method BuildRanges(peers: seq<Peer>) returns (ranges: seq<Range>)
    ensures RangesOf(ranges, peers)
  {
    hide Before;
    BeforeAll(WeightsOf(peers));
    ranges := [];
    var cumulative := 0;
    for n := 0 to |peers|
      invariant |ranges| == n && cumulative == Before(WeightsOf(peers), n)
      invariant forall i :: 0 <= i < n ==> ranges[i] == Range(peers[i], Before(WeightsOf(peers), i + 1))
    {
      PrefixNext(WeightsOf(peers), n);
      cumulative := cumulative + peers[n].cfg.weight;
      ranges := ranges + [Range(peers[n], cumulative)];
    }
  }

  /** Binary search over the cumulative ranges: the same peer as the linear walk, for every number. */
  method BinarySelect(ranges: seq<Range>, ghost peers: seq<Peer>, x: int) returns (selected: Peer)
    requires RangesOf(ranges, peers) && (forall p :: p in peers ==> p.cfg.weight >= 1)
    requires 0 <= x < Sum(WeightsOf(peers))
    ensures selected == peers[OwnerOf(WeightsOf(peers), x)]
  {
    hide Before;
    ghost var ws := WeightsOf(peers);
    BeforeAll(ws);
    var lo, hi := 0, |ranges| - 1;
    while lo < hi
      invariant 0 <= lo <= hi < |ranges|
      invariant Before(ws, lo) <= x < Before(ws, hi + 1)
    {
      var mid := (lo + hi) / 2;
      if ranges[mid].upper <= x {
        lo := mid + 1;
      } else {
        hi := mid;
      }
    }
    OwnerUnique(ws, lo, OwnerOf(ws, x), x);
    return ranges[lo].peer;
  }
}
