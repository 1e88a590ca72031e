/**
 The retention grid of `crates/config/src/grid/retention.rs`: what a grid keeps,
 stated over any subset of a snapshot list, and the bucketing loop `fit` proved
 to compute it.
 */
module Retention {
  import opened Wrappers

  datatype KeepCount = KeepAll | Exactly(n: nat)

  datatype RetentionInterval = RetentionInterval(length: nat, keepCount: KeepCount)

  type GridSpec = seq<RetentionInterval>

  datatype SnapshotEntry = SnapshotEntry(name: string, creation: int)

  /** What `GridSpec::parse` lets through. */
  ghost predicate ValidGrid(grid: GridSpec) {
    && grid != []
    && forall iv | iv in grid :: iv.length > 0 && (iv.keepCount.Exactly? ==> iv.keepCount.n > 0)
  }

  // ------------------------------------------------------------ specification

  /** Age, from the newest entry, at which bucket `k` begins. */
  function Edge(grid: GridSpec, k: nat): (e: nat)
    requires k <= |grid|
  {
    if k == 0 then 0 else Edge(grid, k - 1) + grid[k - 1].length
  }

  /** The sum of all interval lengths. */
  function Window(grid: GridSpec): nat {
    Edge(grid, |grid|)
  }

  predicate InBucket(grid: GridSpec, k: nat, age: int)
    requires k < |grid|
  {
    Edge(grid, k) <= age < Edge(grid, k + 1)
  }

  function Times(entries: seq<SnapshotEntry>): (c: seq<int>)
    ensures |c| == |entries| && forall i | 0 <= i < |c| :: c[i] == entries[i].creation
  {
    seq(|entries|, i requires 0 <= i < |entries| => entries[i].creation)
  }

  /** The newest creation time among the indices in `among`. */
  ghost function Newest(c: seq<int>, among: set<nat>): (r: Option<int>)
    ensures r.None? <==> forall i | i in among :: i >= |c|
    ensures r.Some? ==> exists i :: i in among && i < |c| && c[i] == r.value
    ensures r.Some? ==> forall i | i in among && i < |c| :: c[i] <= r.value
  {
    if c == [] then None
    else
      var last := |c| - 1;
      var rest := Newest(c[..last], among);
      assert forall i | i in among && i < last :: c[..last][i] == c[i];
      if last in among && (rest.None? || rest.value <= c[last]) then Some(c[last])
      else rest
  }

  /** `i` lies nearer the old end than `j` in the sorted bucket: older, or
      listed later at the same second. */
  predicate Older(c: seq<int>, i: nat, j: nat) {
    i < |c| && j < |c| && (c[i] < c[j] || (c[i] == c[j] && i > j))
  }

  ghost predicate Indices(c: seq<int>, among: set<nat>) {
    forall i | i in among :: i < |c|
  }

  ghost function Age(c: seq<int>, among: set<nat>, i: nat): int
    requires Indices(c, among) && i in among
  {
    assert i < |c|;
    Newest(c, among).value - c[i]
  }

  /** Members of bucket `k` nearer the old end than `i`. */
  ghost function OlderPeers(grid: GridSpec, c: seq<int>, among: set<nat>, k: nat, i: nat): (r: set<nat>)
    requires Indices(c, among) && k < |grid| && i < |c|
    ensures r <= among
  {
    set j | j in among && InBucket(grid, k, Age(c, among, j)) && Older(c, j, i)
  }

  ghost predicate KeptIn(grid: GridSpec, c: seq<int>, among: set<nat>, k: nat, i: nat)
    requires Indices(c, among) && k < |grid| && i in among
  {
    && InBucket(grid, k, Age(c, among, i))
    && (grid[k].keepCount.KeepAll? || |OlderPeers(grid, c, among, k, i)| < grid[k].keepCount.n)
  }

  /** The grid keeps `i`: it falls in a bucket, and fewer than that bucket's
      count of members lie nearer the old end. */
  ghost predicate Kept(grid: GridSpec, c: seq<int>, among: set<nat>, i: nat)
    requires Indices(c, among) && i in among
  {
    exists k :: 0 <= k < |grid| && KeptIn(grid, c, among, k, i)
  }

  ghost function KeptSet(grid: GridSpec, c: seq<int>, among: set<nat>): (r: set<nat>)
    requires Indices(c, among)
    ensures r <= among
  {
    set i | i in among && Kept(grid, c, among, i)
  }

  ghost function All(n: nat): (r: set<nat>)
    ensures forall i: nat :: i in r <==> i < n
  {
    if n == 0 then {} else All(n - 1) + {n - 1}
  }

  // ------------------------------------------------------------------ tiling

  lemma {:induction false} EdgeGrows(grid: GridSpec, j: nat, k: nat)
    requires j <= k <= |grid|
    ensures Edge(grid, j) <= Edge(grid, k)
  {
    if j < k {
      EdgeGrows(grid, j, k - 1);
    }
  }

  /** Buckets are disjoint, so the first one that contains an age is the only
      one. */
  lemma BucketsAreDisjoint(grid: GridSpec, j: nat, k: nat, age: int)
    requires j < |grid| && k < |grid| && InBucket(grid, j, age) && InBucket(grid, k, age)
    ensures j == k
  {
    if j < k {
      EdgeGrows(grid, j + 1, k);
    } else if k < j {
      EdgeGrows(grid, k + 1, j);
    }
  }

  /** And they tile the window. */
  lemma {:induction false} BucketsTile(grid: GridSpec, p: nat, age: int) returns (k: nat)
    requires p <= |grid| && 0 <= age < Edge(grid, p)
    ensures k < p && InBucket(grid, k, age)
  {
    if age >= Edge(grid, p - 1) {
      k := p - 1;
    } else {
      k := BucketsTile(grid, p - 1, age);
    }
  }

  lemma KeptOnlyIn(grid: GridSpec, c: seq<int>, among: set<nat>, k: nat, i: nat)
    requires Indices(c, among) && i in among && k < |grid| && InBucket(grid, k, Age(c, among, i))
    ensures Kept(grid, c, among, i) <==> KeptIn(grid, c, among, k, i)
  {
    forall j | 0 <= j < |grid| && KeptIn(grid, c, among, j, i)
      ensures j == k
    {
      BucketsAreDisjoint(grid, j, k, Age(c, among, i));
    }
  }

  // ----------------------------------------------------------------- sorting

  predicate Distinct(s: seq<nat>) {
    forall i, j | 0 <= i < j < |s| :: s[i] != s[j]
  }

  predicate Ascending(s: seq<nat>) {
    forall i, j | 0 <= i < j < |s| :: s[i] < s[j]
  }

  predicate Below(s: seq<nat>, n: nat) {
    forall i | i in s :: i < n
  }

  /** Youngest first, the order of the listing on ties: what the stable sort
      makes of an ascending bucket. */
  predicate YoungestFirst(c: seq<int>, s: seq<nat>) {
    forall p, q | 0 <= p < q < |s| :: Older(c, s[q], s[p])
  }

  function InsertYoungestFirst(c: seq<int>, x: nat, s: seq<nat>): (r: seq<nat>)
    requires x < |c| && Below(s, |c|) && YoungestFirst(c, s) && x !in s
    ensures |r| == |s| + 1 && (forall i :: i in r <==> i in s || i == x)
    ensures YoungestFirst(c, r)
  {
    if s == [] then [x]
    else
      assert s[0] in s && s == [s[0]] + s[1..];
      if Older(c, s[0], x) then [x] + s
      else
        var rest := InsertYoungestFirst(c, x, s[1..]);
        assert forall y | y in rest :: Older(c, y, s[0]);
        [s[0]] + rest
  }

  function SortYoungestFirst(c: seq<int>, s: seq<nat>): (r: seq<nat>)
    requires Distinct(s) && Below(s, |c|)
    ensures |r| == |s| && (forall i :: i in r <==> i in s)
    ensures YoungestFirst(c, r)
  {
    if s == [] then []
    else
      assert s == [s[0]] + s[1..] && s[0] !in s[1..] && s[0] in s;
      assert forall i | i in s[1..] :: i in s;
      InsertYoungestFirst(c, s[0], SortYoungestFirst(c, s[1..]))
  }

  lemma HeadIsLeast(s: seq<nat>)
    requires Ascending(s) && s != []
    ensures Ascending(s[1..]) && forall y | y in s[1..] :: s[0] < y
  {
  }

  lemma Prepended(x: nat, s: seq<nat>)
    requires Ascending(s) && forall y | y in s :: x < y
    ensures Ascending([x] + s)
  {
    assert forall p | 0 <= p < |s| :: s[p] in s;
  }

  function InsertAscending(x: nat, s: seq<nat>): (r: seq<nat>)
    requires Ascending(s) && x !in s
    ensures Ascending(r) && |r| == |s| + 1 && (forall i :: i in r <==> i in s || i == x)
  {
    if s == [] then [x]
    else
      assert s == [s[0]] + s[1..];
      HeadIsLeast(s);
      if x < s[0] then
        Prepended(x, s);
        [x] + s
      else
        var rest := InsertAscending(x, s[1..]);
        Prepended(s[0], rest);
        [s[0]] + rest
  }

  function SortAscending(s: seq<nat>): (r: seq<nat>)
    requires Distinct(s)
    ensures Ascending(r) && |r| == |s| && (forall i :: i in r <==> i in s)
  {
    if s == [] then []
    else
      assert s == [s[0]] + s[1..] && s[0] !in s[1..];
      InsertAscending(s[0], SortAscending(s[1..]))
  }

  lemma {:induction false} DistinctSize(s: seq<nat>)
    requires Distinct(s)
    ensures |Elements(s)| == |s|
  {
    if s != [] {
      DistinctSize(s[1..]);
      assert s == [s[0]] + s[1..] && s[0] !in s[1..];
      assert Elements(s) == {s[0]} + Elements(s[1..]);
    }
  }

  // --------------------------------------------------------------------- fit

  /** One interval while `fit` runs: the half-open span of creation times it
      covers and the indices that fell into it. */
  datatype Bucket = Bucket(keepCount: KeepCount, youngerThan: int, olderThanOrEq: int, indices: seq<nat>)
  {
    predicate Contains(time: int) {
      time <= olderThanOrEq && time > youngerThan
    }
  }

  /** Bucket `k` covers the interval's ages, seen from `now`. */
  ghost predicate Covers(grid: GridSpec, now: int, b: Bucket, k: nat) {
    && k < |grid|
    && b.keepCount == grid[k].keepCount
    && b.olderThanOrEq == now - Edge(grid, k)
    && b.youngerThan == now - Edge(grid, k + 1)
  }

  /** The first `n` entries have been bucketed. */
  ghost predicate Holds(grid: GridSpec, now: int, c: seq<int>, b: Bucket, k: nat, n: nat) {
    && Covers(grid, now, b, k)
    && Ascending(b.indices) && Below(b.indices, n)
    && n <= |c|
    && forall i | 0 <= i < n :: i in b.indices <==> InBucket(grid, k, now - c[i])
  }

  ghost predicate AllHold(grid: GridSpec, now: int, c: seq<int>, buckets: seq<Bucket>, n: nat) {
    |buckets| == |grid| && forall k | 0 <= k < |grid| :: Holds(grid, now, c, buckets[k], k, n)
  }

  method NewestOf(entries: seq<SnapshotEntry>) returns (now: int)
    requires entries != []
    ensures Newest(Times(entries), All(|entries|)) == Some(now)
  {
    now := entries[0].creation;
    ghost var at := 0;
    for i := 0 to |entries|
      invariant forall j | 0 <= j < i :: entries[j].creation <= now
      invariant at < |entries| && entries[at].creation == now
    {
      if entries[i].creation > now {
        now, at := entries[i].creation, i;
      }
    }
    GreatestIsNewest(Times(entries), All(|entries|), at);
  }

  lemma {:induction false} GreatestIsNewest(c: seq<int>, among: set<nat>, m: nat)
    requires m in among && m < |c| && forall j | j in among && j < |c| :: c[j] <= c[m]
    ensures Newest(c, among) == Some(c[m])
  {
    var newest := Newest(c, among);
    assert newest.Some?;
    var i :| i in among && i < |c| && c[i] == newest.value;
  }

  method MakeBuckets(grid: GridSpec, now: int) returns (buckets: seq<Bucket>)
    ensures |buckets| == |grid|
    ensures forall k | 0 <= k < |grid| :: Covers(grid, now, buckets[k], k) && buckets[k].indices == []
  {
    buckets := [];
    var prevYounger := now;
    for k := 0 to |grid|
      invariant |buckets| == k && prevYounger == now - Edge(grid, k)
      invariant forall j | 0 <= j < k :: Covers(grid, now, buckets[j], j) && buckets[j].indices == []
    {
      var olderThanOrEq := prevYounger;
      var youngerThan := olderThanOrEq - grid[k].length;
      buckets := buckets + [Bucket(grid[k].keepCount, youngerThan, olderThanOrEq, [])];
      prevYounger := youngerThan;
    }
  }

  /** Drop one entry into the first bucket that contains it. */
  method PlaceEntry(grid: GridSpec, now: int, c: seq<int>, buckets: seq<Bucket>, idx: nat)
    returns (placed: bool, next: seq<Bucket>)
    requires idx < |c| && c[idx] <= now
    requires AllHold(grid, now, c, buckets, idx)
    ensures AllHold(grid, now, c, next, idx + 1)
    ensures placed <==> now - c[idx] < Window(grid)
  {
    var k := 0;
    while k < |buckets|
      invariant 0 <= k <= |grid|
      invariant now - c[idx] >= Edge(grid, k)
    {
      var b := buckets[k];
      if b.Contains(c[idx]) {
        next := buckets[k := b.(indices := b.indices + [idx])];
        forall j | 0 <= j < |grid|
          ensures Holds(grid, now, c, next[j], j, idx + 1)
        {
          assert forall p | 0 <= p < |b.indices| :: b.indices[p] in b.indices;
          if j != k && InBucket(grid, j, now - c[idx]) {
            BucketsAreDisjoint(grid, j, k, now - c[idx]);
          }
        }
        EdgeGrows(grid, k + 1, |grid|);
        return true, next;
      }
      k := k + 1;
    }
    forall j | 0 <= j < |grid|
      ensures Holds(grid, now, c, buckets[j], j, idx + 1)
    {
      EdgeGrows(grid, j + 1, |grid|);
    }
    return false, buckets;
  }

  lemma AgeFromNow(c: seq<int>, among: set<nat>, now: int, i: nat)
    requires Indices(c, among) && i in among && Newest(c, among) == Some(now)
    ensures i < |c| && Age(c, among, i) == now - c[i] >= 0
  {
  }

  /** In a bucket sorted youngest first, the members nearer the old end than
      the one at `q` are those behind it. */
  lemma RankInSorted(grid: GridSpec, c: seq<int>, now: int, k: nat, s: seq<nat>, q: nat)
    requires k < |grid| && YoungestFirst(c, s) && q < |s| && Newest(c, All(|c|)) == Some(now)
    requires forall i: nat :: i in s <==> i < |c| && InBucket(grid, k, now - c[i])
    ensures s[q] in s && |OlderPeers(grid, c, All(|c|), k, s[q])| == |s| - 1 - q
  {
    var tail := s[q + 1..];
    assert s[q] in s;
    SortedTailIsDistinct(c, s, q + 1);
    DistinctSize(tail);
    forall j: nat
      ensures j in OlderPeers(grid, c, All(|c|), k, s[q]) <==> j in Elements(tail)
    {
      TailIsOlder(grid, c, now, k, s, q, j);
    }
    assert OlderPeers(grid, c, All(|c|), k, s[q]) == Elements(tail);
  }

  lemma SortedTailIsDistinct(c: seq<int>, s: seq<nat>, q: nat)
    requires YoungestFirst(c, s) && q <= |s|
    ensures Distinct(s[q..])
  {
  }

  lemma InOlderPeers(grid: GridSpec, c: seq<int>, now: int, k: nat, i: nat, j: nat)
    requires k < |grid| && i < |c| && Newest(c, All(|c|)) == Some(now)
    ensures j in OlderPeers(grid, c, All(|c|), k, i)
            <==> j < |c| && InBucket(grid, k, now - c[j]) && Older(c, j, i)
  {
    if j < |c| {
      AgeFromNow(c, All(|c|), now, j);
    }
  }

  lemma OlderThanInSorted(c: seq<int>, s: seq<nat>, q: nat, j: nat)
    requires YoungestFirst(c, s) && q < |s|
    ensures j in s && Older(c, j, s[q]) <==> j in s[q + 1..]
  {
    if j in s {
      var p :| 0 <= p < |s| && s[p] == j;
      if p > q {
        assert s[q + 1..][p - q - 1] == j;
      } else {
        assert p == q || Older(c, s[q], s[p]);
      }
    }
    if j in s[q + 1..] {
      var x :| 0 <= x < |s| - q - 1 && s[q + 1..][x] == j;
      assert s[x + q + 1] == j;
    }
  }

  lemma TailIsOlder(grid: GridSpec, c: seq<int>, now: int, k: nat, s: seq<nat>, q: nat, j: nat)
    requires k < |grid| && YoungestFirst(c, s) && q < |s| && Newest(c, All(|c|)) == Some(now)
    requires forall i: nat :: i in s <==> i < |c| && InBucket(grid, k, now - c[i])
    requires s[q] < |c|
    ensures j in OlderPeers(grid, c, All(|c|), k, s[q]) <==> j in s[q + 1..]
  {
    InOlderPeers(grid, c, now, k, s[q], j);
    OlderThanInSorted(c, s, q, j);
  }

  /** After the first `p` buckets: what they keep. */
  ghost predicate KeptSoFar(grid: GridSpec, c: seq<int>, now: int, p: nat, keep: seq<nat>)
    requires p <= |grid|
  {
    && Distinct(keep)
    && forall i: nat :: i in keep <==>
         i < |c| && now - c[i] < Edge(grid, p) && Kept(grid, c, All(|c|), i)
  }

  /** After the first `p` buckets: what they drop, and whatever is older than
      the grid. */
  ghost predicate DroppedSoFar(grid: GridSpec, c: seq<int>, now: int, p: nat, destroy: seq<nat>)
    requires p <= |grid|
  {
    && Distinct(destroy)
    && forall i: nat :: i in destroy <==>
         && i < |c|
         && ((now - c[i] < Edge(grid, p) && !Kept(grid, c, All(|c|), i)) || now - c[i] >= Window(grid))
  }

  /** Thin one bucket: keep the oldest `n` of a counted bucket. */
  method ThinBucket(grid: GridSpec, c: seq<int>, now: int, b: Bucket, ghost k: nat)
    returns (keep: seq<nat>, destroy: seq<nat>)
    requires k < |grid| && Holds(grid, now, c, b, k, |c|) && Newest(c, All(|c|)) == Some(now)
    ensures Distinct(keep) && Distinct(destroy)
    ensures forall i: nat :: i in keep <==>
              i < |c| && InBucket(grid, k, now - c[i]) && Kept(grid, c, All(|c|), i)
    ensures forall i: nat :: i in destroy <==>
              i < |c| && InBucket(grid, k, now - c[i]) && !Kept(grid, c, All(|c|), i)
  {
    forall i: nat | i < |c| && InBucket(grid, k, now - c[i])
      ensures Kept(grid, c, All(|c|), i) <==> KeptIn(grid, c, All(|c|), k, i)
    {
      AgeFromNow(c, All(|c|), now, i);
      KeptOnlyIn(grid, c, All(|c|), k, i);
    }
    match b.keepCount {
      case KeepAll =>
        keep, destroy := b.indices, [];
      case Exactly(n) =>
        var sorted := SortYoungestFirst(c, b.indices);
        assert forall q | 0 <= q < |sorted| :: sorted[q] in b.indices;
        forall q | 0 <= q < |sorted|
          ensures Kept(grid, c, All(|c|), sorted[q]) <==> |sorted| - 1 - q < n
        {
          RankInSorted(grid, c, now, k, sorted, q);
        }
        var excess := if |sorted| <= n then 0 else |sorted| - n;
        destroy, keep := sorted[..excess], sorted[excess..];
        SortedSplit(c, sorted, excess);
    }
  }

  /** Cutting a sorted bucket splits its members by position. */
  lemma SortedSplit(c: seq<int>, s: seq<nat>, q: nat)
    requires YoungestFirst(c, s) && q <= |s|
    ensures Distinct(s[..q]) && Distinct(s[q..])
    ensures forall p | 0 <= p < |s| :: (s[p] in s[..q] <==> p < q) && (s[p] in s[q..] <==> q <= p)
    ensures forall i | i in s[..q] || i in s[q..] :: i in s
  {
    forall p, x | 0 <= p < |s| && 0 <= x < |s| && p != x
      ensures s[p] != s[x]
    {
      assert Older(c, s[if p < x then x else p], s[if p < x then p else x]);
    }
    forall p | 0 <= p < |s|
      ensures p < q ==> s[p] in s[..q]
      ensures q <= p ==> s[p] in s[q..]
    {
      if p < q {
        assert s[..q][p] == s[p];
      } else {
        assert s[q..][p - q] == s[p];
      }
    }
  }

  lemma NoneAfterNow(c: seq<int>, now: int)
    requires Newest(c, All(|c|)) == Some(now)
    ensures forall i: nat | i < |c| :: c[i] <= now
  {
    assert forall i: nat | i < |c| :: i in All(|c|);
  }

  lemma Appended(s: seq<nat>, n: nat)
    requires Ascending(s) && Below(s, n)
    ensures Ascending(s + [n]) && Below(s + [n], n + 1)
  {
    assert forall p | 0 <= p < |s| :: s[p] in s;
  }

  /** `destroy` holds those of the first `n` entries that lie outside the window. */
  ghost predicate OutsideSoFar(grid: GridSpec, now: int, c: seq<int>, destroy: seq<nat>, n: nat) {
    && n <= |c| && Ascending(destroy) && Below(destroy, n)
    && forall i: nat :: i in destroy <==> i < n && now - c[i] >= Window(grid)
  }

  lemma NextOutside(grid: GridSpec, now: int, c: seq<int>, destroy: seq<nat>, n: nat, placed: bool)
    requires n < |c| && OutsideSoFar(grid, now, c, destroy, n)
    requires placed <==> now - c[n] < Window(grid)
    ensures OutsideSoFar(grid, now, c, if placed then destroy else destroy + [n], n + 1)
  {
    Appended(destroy, n);
    assert forall i | i in destroy :: i < n;
  }

  /** Sort every entry into its bucket; what is in none is destroyed. The
      source first keeps entries dated after `now`, a branch that is never
      taken, since `now` is the newest creation time in the list. */
  method BucketEntries(grid: GridSpec, entries: seq<SnapshotEntry>, now: int)
    returns (buckets: seq<Bucket>, destroy: seq<nat>)
    requires Newest(Times(entries), All(|entries|)) == Some(now)
    ensures AllHold(grid, now, Times(entries), buckets, |entries|)
    ensures Ascending(destroy)
    ensures forall i: nat :: i in destroy <==> i < |entries| && now - Times(entries)[i] >= Window(grid)
  {
    var c := Times(entries);
    NoneAfterNow(c, now);
    destroy := [];
    buckets := MakeBuckets(grid, now);
    for idx := 0 to |entries|
      invariant AllHold(grid, now, c, buckets, idx)
      invariant OutsideSoFar(grid, now, c, destroy, idx)
    {
      var placed;
      placed, buckets := PlaceEntry(grid, now, c, buckets, idx);
      NextOutside(grid, now, c, destroy, idx, placed);
      if !placed {
        destroy := destroy + [idx];
      }
    }
  }

  /** Thin the buckets one after the other. */
  method ThinBuckets(grid: GridSpec, c: seq<int>, now: int, buckets: seq<Bucket>, outside: seq<nat>)
    returns (keep: seq<nat>, destroy: seq<nat>)
    requires AllHold(grid, now, c, buckets, |c|) && Newest(c, All(|c|)) == Some(now)
    requires DroppedSoFar(grid, c, now, 0, outside)
    ensures KeptSoFar(grid, c, now, |grid|, keep) && DroppedSoFar(grid, c, now, |grid|, destroy)
  {
    keep, destroy := [], outside;
    for p := 0 to |buckets|
      invariant KeptSoFar(grid, c, now, p, keep)
      invariant DroppedSoFar(grid, c, now, p, destroy)
    {
      var k, d := ThinBucket(grid, c, now, buckets[p], p);
      KeepStep(grid, c, now, p, keep, k);
      DropStep(grid, c, now, p, destroy, d);
      destroy := destroy + d;
      keep := keep + k;
    }
  }

  /** The bucketing loop. The two results partition the indices, each in
      ascending order, and say exactly what the grid keeps. */
  method Fit(grid: GridSpec, entries: seq<SnapshotEntry>) returns (keep: seq<nat>, destroy: seq<nat>)
    ensures Ascending(keep) && Ascending(destroy)
    ensures forall i: nat :: i in keep <==> i < |entries| && Kept(grid, Times(entries), All(|entries|), i)
    ensures forall i: nat :: i in destroy <==> i < |entries| && !Kept(grid, Times(entries), All(|entries|), i)
  {
    keep, destroy := [], [];
    if entries == [] {
      return;
    }
    var c := Times(entries);
    var now := NewestOf(entries);
    var buckets, outside := BucketEntries(grid, entries, now);
    AgesArePositive(c, now);
    keep, destroy := ThinBuckets(grid, c, now, buckets, outside);
    KeptInsideWindow(grid, c, now);
    keep := SortAscending(keep);
    destroy := SortAscending(destroy);
  }

  lemma AgesArePositive(c: seq<int>, now: int)
    requires Newest(c, All(|c|)) == Some(now)
    ensures forall i: nat | i < |c| :: now - c[i] >= 0
  {
    forall i: nat | i < |c|
      ensures now - c[i] >= 0
    {
      AgeFromNow(c, All(|c|), now, i);
    }
  }

  lemma KeepStep(grid: GridSpec, c: seq<int>, now: int, p: nat, keep: seq<nat>, k: seq<nat>)
    requires p < |grid| && KeptSoFar(grid, c, now, p, keep) && Distinct(k)
    requires forall i: nat :: i in k <==> i < |c| && InBucket(grid, p, now - c[i]) && Kept(grid, c, All(|c|), i)
    ensures KeptSoFar(grid, c, now, p + 1, keep + k)
  {
    DistinctAppend(keep, k);
  }

  lemma DropStep(grid: GridSpec, c: seq<int>, now: int, p: nat, destroy: seq<nat>, d: seq<nat>)
    requires p < |grid| && DroppedSoFar(grid, c, now, p, destroy) && Distinct(d)
    requires forall i: nat :: i in d <==> i < |c| && InBucket(grid, p, now - c[i]) && !Kept(grid, c, All(|c|), i)
    ensures DroppedSoFar(grid, c, now, p + 1, destroy + d)
  {
    EdgeGrows(grid, p + 1, |grid|);
    DistinctAppend(destroy, d);
  }

  lemma DistinctAppend(s: seq<nat>, t: seq<nat>)
    requires Distinct(s) && Distinct(t) && forall i | i in s :: i !in t
    ensures Distinct(s + t)
  {
    var r := s + t;
    forall i, j | 0 <= i < j < |r|
      ensures r[i] != r[j]
    {
      if i < |s| && |s| <= j {
        assert r[i] in s && r[j] == t[j - |s|] && r[j] in t;
      }
    }
  }

  lemma KeptInsideWindow(grid: GridSpec, c: seq<int>, now: int)
    requires Newest(c, All(|c|)) == Some(now)
    ensures forall i: nat | i < |c| :: Kept(grid, c, All(|c|), i) ==> now - c[i] < Window(grid)
  {
    forall i: nat, k: nat | i < |c| && k < |grid| && KeptIn(grid, c, All(|c|), k, i)
      ensures now - c[i] < Window(grid)
    {
      AgeFromNow(c, All(|c|), now, i);
      EdgeGrows(grid, k + 1, |grid|);
    }
  }
}
