/**
 What the grid promises: judged on one list, on a list pruned twice, and over
 any number of "take a snapshot, then prune" rounds.
 */
module RetentionLaws {
  import opened Wrappers
  import opened Retention

  /** Moving to an older member of the bucket leaves fewer members behind. */
  lemma PeersShrink(grid: GridSpec, c: seq<int>, among: set<nat>, k: nat, i: nat, j: nat)
    requires Indices(c, among) && k < |grid| && i < |c| && j in OlderPeers(grid, c, among, k, i)
    ensures j < |c| && |OlderPeers(grid, c, among, k, j)| < |OlderPeers(grid, c, among, k, i)|
  {
    var pi, pj := OlderPeers(grid, c, among, k, i), OlderPeers(grid, c, among, k, j);
    SubsetSize(pj, pi - {j});
  }

  // ---------------------------------------------------------------- one list

  /** Every entry the grid drops inside its window has a keeper: a kept entry of
      the same bucket that is no younger and less than one bucket length away. */
  lemma {:induction false} DroppedHasKeeper(grid: GridSpec, c: seq<int>, among: set<nat>, i: nat) returns (j: nat)
    requires ValidGrid(grid) && Indices(c, among) && i in among
    requires Age(c, among, i) < Window(grid) && !Kept(grid, c, among, i)
    ensures j in among && Kept(grid, c, among, j)
    ensures exists k :: 0 <= k < |grid| && InBucket(grid, k, Age(c, among, i)) && InBucket(grid, k, Age(c, among, j))
                        && c[i] - grid[k].length < c[j] <= c[i]
  {
    var k := BucketsTile(grid, |grid|, Age(c, among, i));
    j := KeeperInBucket(grid, c, among, k, i);
    assert Edge(grid, k + 1) == Edge(grid, k) + grid[k].length;
  }

  lemma {:induction false} KeeperInBucket(grid: GridSpec, c: seq<int>, among: set<nat>, k: nat, i: nat)
    returns (j: nat)
    requires ValidGrid(grid) && Indices(c, among) && i in among && k < |grid|
    requires InBucket(grid, k, Age(c, among, i))
    ensures j in among && Kept(grid, c, among, j)
    ensures InBucket(grid, k, Age(c, among, j)) && c[j] <= c[i]
    decreases |OlderPeers(grid, c, among, k, i)|
  {
    KeptOnlyIn(grid, c, among, k, i);
    if KeptIn(grid, c, among, k, i) {
      j := i;
    } else {
      assert grid[k] in grid;
      var older :| older in OlderPeers(grid, c, among, k, i);
      PeersShrink(grid, c, among, k, i, older);
      j := KeeperInBucket(grid, c, among, k, older);
    }
  }

  /** Nothing older than the grid's window is kept. */
  lemma KeptLiesInWindow(grid: GridSpec, c: seq<int>, among: set<nat>, i: nat)
    requires Indices(c, among) && i in among && Kept(grid, c, among, i)
    ensures Age(c, among, i) < Window(grid)
  {
    var k :| 0 <= k < |grid| && KeptIn(grid, c, among, k, i);
    EdgeGrows(grid, k + 1, |grid|);
  }

  /** No member lies nearer the old end than `o`. */
  ghost predicate IsOldest(c: seq<int>, among: set<nat>, o: nat) {
    o in among && forall j | j in among && j != o :: Older(c, o, j)
  }

  /** The oldest member is kept for as long as the window covers it. */
  lemma OldestIsKept(grid: GridSpec, c: seq<int>, among: set<nat>, o: nat)
    requires ValidGrid(grid) && Indices(c, among) && IsOldest(c, among, o)
    requires Age(c, among, o) < Window(grid)
    ensures Kept(grid, c, among, o)
  {
    var k := BucketsTile(grid, |grid|, Age(c, among, o));
    KeptOnlyIn(grid, c, among, k, o);
    assert grid[k] in grid;
    assert OlderPeers(grid, c, among, k, o) == {};
  }

  // ---------------------------------------------------------------- counting

  ghost predicate Counted(grid: GridSpec) {
    forall iv | iv in grid :: iv.keepCount.Exactly?
  }

  function SumOfCounts(grid: GridSpec, p: nat): nat
    requires p <= |grid|
  {
    if p == 0 then 0
    else SumOfCounts(grid, p - 1) + if grid[p - 1].keepCount.Exactly? then grid[p - 1].keepCount.n else 0
  }

  lemma {:induction false} YoungestOf(c: seq<int>, s: set<nat>) returns (x: nat)
    requires s != {} && Indices(c, s)
    ensures x in s && forall j | j in s && j != x :: Older(c, j, x)
    decreases |s|
  {
    var y :| y in s;
    if s == {y} {
      x := y;
    } else {
      var z := YoungestOf(c, s - {y});
      x := if Older(c, y, z) then z else y;
      forall j | j in s && j != x
        ensures Older(c, j, x)
      {
        assert j != y ==> j in s - {y};
      }
    }
  }

  lemma BucketKeepsAtMost(grid: GridSpec, c: seq<int>, among: set<nat>, k: nat, s: set<nat>)
    requires Indices(c, among) && k < |grid| && grid[k].keepCount.Exactly?
    requires s <= among && forall i | i in s :: KeptIn(grid, c, among, k, i)
    ensures |s| <= grid[k].keepCount.n
  {
    if s != {} {
      var x := YoungestOf(c, s);
      SubsetSize(s - {x}, OlderPeers(grid, c, among, k, x));
    }
  }

  ghost predicate KeptBelow(grid: GridSpec, c: seq<int>, among: set<nat>, p: nat, i: nat)
    requires Indices(c, among) && p <= |grid| && i in among
  {
    exists k :: 0 <= k < p && KeptIn(grid, c, among, k, i)
  }

  lemma KeptFurtherDown(grid: GridSpec, c: seq<int>, among: set<nat>, p: nat, i: nat)
    requires Indices(c, among) && 0 < p <= |grid| && i in among
    requires KeptBelow(grid, c, among, p, i) && !KeptIn(grid, c, among, p - 1, i)
    ensures KeptBelow(grid, c, among, p - 1, i)
  {
    var k :| 0 <= k < p && KeptIn(grid, c, among, k, i);
    assert k < p - 1;
  }

  lemma SizeOfParts(s: set<nat>, part: set<nat>)
    requires part <= s
    ensures |s| == |part| + |s - part|
  {
    assert s == part + (s - part);
  }

  lemma {:induction false} FirstBucketsKeepAtMost(grid: GridSpec, c: seq<int>, among: set<nat>, p: nat, s: set<nat>)
    requires Indices(c, among) && p <= |grid| && Counted(grid) && s <= among
    requires forall i | i in s :: KeptBelow(grid, c, among, p, i)
    ensures |s| <= SumOfCounts(grid, p)
  {
    if p == 0 {
      assert s == {};
    } else {
      assert grid[p - 1] in grid;
      var here := set i | i in s && KeptIn(grid, c, among, p - 1, i);
      BucketKeepsAtMost(grid, c, among, p - 1, here);
      forall i | i in s - here
        ensures KeptBelow(grid, c, among, p - 1, i)
      {
        KeptFurtherDown(grid, c, among, p, i);
      }
      FirstBucketsKeepAtMost(grid, c, among, p - 1, s - here);
      SizeOfParts(s, here);
    }
  }

  /** A grid of counts keeps at most their sum. */
  lemma KeepsAtMostSumOfCounts(grid: GridSpec, c: seq<int>, among: set<nat>)
    requires Indices(c, among) && Counted(grid)
    ensures |KeptSet(grid, c, among)| <= SumOfCounts(grid, |grid|)
  {
    FirstBucketsKeepAtMost(grid, c, among, |grid|, KeptSet(grid, c, among));
  }

  // ------------------------------------------------------------- idempotence

  /** If a newest entry survives, pruning the survivors again drops nothing. */
  lemma RefitDropsNothing(grid: GridSpec, c: seq<int>, among: set<nat>, m: nat)
    requires Indices(c, among) && m in KeptSet(grid, c, among) && Newest(c, among) == Some(c[m])
    ensures KeptSet(grid, c, KeptSet(grid, c, among)) == KeptSet(grid, c, among)
  {
    var kept := KeptSet(grid, c, among);
    GreatestIsNewest(c, kept, m);
    forall i | i in kept
      ensures Kept(grid, c, kept, i)
    {
      var k :| 0 <= k < |grid| && KeptIn(grid, c, among, k, i);
      SubsetSize(OlderPeers(grid, c, kept, k, i), OlderPeers(grid, c, among, k, i));
      assert KeptIn(grid, c, kept, k, i);
    }
  }

  /** A leading `keep=all` interval always spares the newest entry. */
  lemma KeepAllFirstSparesNewest(grid: GridSpec, c: seq<int>, among: set<nat>, m: nat)
    requires ValidGrid(grid) && grid[0].keepCount.KeepAll?
    requires Indices(c, among) && m in among && Newest(c, among) == Some(c[m])
    ensures m in KeptSet(grid, c, among)
  {
    assert grid[0] in grid;
    assert Edge(grid, 1) == Edge(grid, 0) + grid[0].length;
    assert KeptIn(grid, c, among, 0, m);
  }

  const TEN := RetentionInterval(10, Exactly(1))
  const TWO_TENS: GridSpec := [TEN, TEN]
  const THREE_TIMES := [88, 95, 100]

  lemma JudgedByPeers(among: set<nat>, now: int, k: nat, i: nat, peers: set<nat>)
    requires Indices(THREE_TIMES, among) && i in among && Newest(THREE_TIMES, among) == Some(now) && k < 2
    requires 10 * k <= now - THREE_TIMES[i] < 10 * k + 10
    requires forall j | j in among ::
               j in peers <==> 10 * k <= now - THREE_TIMES[j] < 10 * k + 10 && Older(THREE_TIMES, j, i)
    requires peers <= among
    ensures Kept(TWO_TENS, THREE_TIMES, among, i) <==> peers == {}
  {
    assert Edge(TWO_TENS, 1) == 10 && Edge(TWO_TENS, 2) == 20;
    assert OlderPeers(TWO_TENS, THREE_TIMES, among, k, i) == peers;
    KeptOnlyIn(TWO_TENS, THREE_TIMES, among, k, i);
    assert TWO_TENS[k] == TEN;
  }

  lemma FirstFit()
    ensures Kept(TWO_TENS, THREE_TIMES, {0, 1, 2}, 0)
    ensures Kept(TWO_TENS, THREE_TIMES, {0, 1, 2}, 1)
    ensures !Kept(TWO_TENS, THREE_TIMES, {0, 1, 2}, 2)
  {
    NewestIs(THREE_TIMES, {0, 1, 2}, 2);
    assert THREE_TIMES[0] == 88 && THREE_TIMES[1] == 95 && THREE_TIMES[2] == 100;
    JudgedByPeers({0, 1, 2}, 100, 1, 0, {});
    JudgedByPeers({0, 1, 2}, 100, 0, 1, {});
    JudgedByPeers({0, 1, 2}, 100, 0, 2, {1});
  }

  lemma SecondFit()
    ensures !Kept(TWO_TENS, THREE_TIMES, {0, 1}, 1)
  {
    NewestIs(THREE_TIMES, {0, 1}, 1);
    JudgedByPeers({0, 1}, 95, 0, 1, {0});
  }

  /** When the newest entry goes, `now` moves back and a second prune may drop
      more: two ten-second buckets over entries at 88, 95 and 100. */
  lemma RefitCanDropMore()
    ensures KeptSet(TWO_TENS, THREE_TIMES, {0, 1, 2}) == {0, 1}
    ensures 1 !in KeptSet(TWO_TENS, THREE_TIMES, {0, 1})
  {
    FirstFit();
    SecondFit();
  }

  lemma NewestIs(c: seq<int>, among: set<nat>, m: nat)
    requires Indices(c, among) && m in among && forall i | i in among :: c[i] <= c[m]
    ensures Newest(c, among) == Some(c[m])
  {
  }

  // -------------------------------------------------------------- whole runs

  /** One cycle of a snapshot job: a snapshot at `at`, then a prune that leaves
      `survivors` of what was there. */
  datatype Round = Round(at: int, survivors: set<nat>)

  /** The prune drops nothing the grid keeps; a hold or another rule may spare
      more. `c` is every creation time so far, `live` what is still there. */
  ghost predicate Prunes(grid: GridSpec, c: seq<int>, live: set<nat>, r: Round) {
    && Indices(c, live)
    && (forall i | 0 <= i < |c| :: c[i] < r.at)
    && r.survivors <= live + {|c|}
    && KeptSet(grid, c + [r.at], live + {|c|}) <= r.survivors
  }

  ghost predicate Rounds(grid: GridSpec, c: seq<int>, live: set<nat>, rounds: seq<Round>)
    decreases |rounds|
  {
    && Indices(c, live)
    && (rounds == [] || (Prunes(grid, c, live, rounds[0])
                         && Rounds(grid, c + [rounds[0].at], rounds[0].survivors, rounds[1..])))
  }

  /** No hold and no other rule spares anything. */
  ghost predicate RuleAlone(grid: GridSpec, c: seq<int>, live: set<nat>, r: Round)
    requires Prunes(grid, c, live, r)
  {
    r.survivors == KeptSet(grid, c + [r.at], live + {|c|})
  }

  lemma RoundKeepsOldest(grid: GridSpec, c: seq<int>, live: set<nat>, r: Round, o: nat)
    requires ValidGrid(grid) && Prunes(grid, c, live, r) && IsOldest(c, live, o)
    requires r.at - c[o] < Window(grid)
    ensures IsOldest(c + [r.at], r.survivors, o)
  {
    var c', all_ := c + [r.at], live + {|c|};
    NewestIs(c', all_, |c|);
    assert c'[o] == c[o];
    assert forall j | j in all_ && j != o :: Older(c', o, j);
    OldestIsKept(grid, c', all_, o);
  }

  /** Main result: over any number of rounds, whatever else is spared, the
      oldest retained entry stays until its age reaches the grid's window. */
  lemma {:induction false} OldestSurvivesRounds(grid: GridSpec, c: seq<int>, live: set<nat>, rounds: seq<Round>, o: nat)
    requires ValidGrid(grid) && Rounds(grid, c, live, rounds) && rounds != []
    requires IsOldest(c, live, o) && rounds[|rounds| - 1].at - c[o] < Window(grid)
    ensures o in rounds[|rounds| - 1].survivors
    decreases |rounds|
  {
    var r, c' := rounds[0], c + [rounds[0].at];
    if |rounds| == 1 {
      RoundKeepsOldest(grid, c, live, r, o);
    } else {
      TimesGrow(grid, c, live, rounds);
      RoundKeepsOldest(grid, c, live, r, o);
      assert rounds[1..][|rounds| - 2] == rounds[|rounds| - 1];
      OldestSurvivesRounds(grid, c', r.survivors, rounds[1..], o);
    }
  }

  lemma {:induction false} TimesGrow(grid: GridSpec, c: seq<int>, live: set<nat>, rounds: seq<Round>)
    requires Rounds(grid, c, live, rounds) && rounds != []
    ensures rounds[0].at <= rounds[|rounds| - 1].at
    ensures forall i | 0 <= i < |c| :: c[i] < rounds[|rounds| - 1].at
    decreases |rounds|
  {
    if |rounds| > 1 {
      var c' := c + [rounds[0].at];
      TimesGrow(grid, c', rounds[0].survivors, rounds[1..]);
      assert c'[|c|] == rounds[0].at;
      assert forall i | 0 <= i < |c| :: c'[i] == c[i];
    }
  }

  /** And when the rule prunes alone, what a round leaves lies inside the window
      and, for a grid of counts, numbers at most their sum. */
  lemma RoundLeavesAtMost(grid: GridSpec, c: seq<int>, live: set<nat>, r: Round)
    requires Prunes(grid, c, live, r) && RuleAlone(grid, c, live, r)
    ensures forall i | i in r.survivors :: i <= |c| && r.at - (c + [r.at])[i] < Window(grid)
    ensures Counted(grid) ==> |r.survivors| <= SumOfCounts(grid, |grid|)
  {
    var c', all_ := c + [r.at], live + {|c|};
    NewestIs(c', all_, |c|);
    forall i | i in r.survivors
      ensures i <= |c| && r.at - c'[i] < Window(grid)
    {
      KeptLiesInWindow(grid, c', all_, i);
    }
    if Counted(grid) {
      KeepsAtMostSumOfCounts(grid, c', all_);
    }
  }
}
