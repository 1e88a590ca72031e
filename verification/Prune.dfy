/**
 Keep rules and their combination (`crates/config/src/prune.rs`), the default
 rules a job gets (`crates/config/src/lib.rs`), and when the newest snapshot is
 safe from the prune that follows it.
 */
module Prune {
  import opened Wrappers
  import opened Retention
  import RetentionLaws

  /** A pattern either compiles to a predicate on names or does not. */
  datatype Pattern = Pattern(text: string, valid: bool, isMatch: string -> bool)

  datatype KeepRule =
    | GridRule(grid: GridSpec, pattern: Pattern)
    | RegexRule(pattern: Pattern, negate: bool)

  datatype PruneError = InvalidRegex(pattern: string)

  // ------------------------------------------------------------ specification

  ghost function Matching(entries: seq<SnapshotEntry>, pattern: Pattern): (r: set<nat>)
    ensures forall i: nat :: i in r <==> i < |entries| && pattern.isMatch(entries[i].name)
  {
    set i | i in All(|entries|) && pattern.isMatch(entries[i].name)
  }

  /** The rule wants entry `i` destroyed. A grid judges the matching entries
      among themselves and gives up on all others. */
  ghost predicate Destroys(rule: KeepRule, entries: seq<SnapshotEntry>, i: nat)
    requires i < |entries|
  {
    match rule
    case GridRule(grid, pattern) =>
      !pattern.isMatch(entries[i].name)
      || !Kept(grid, Times(entries), Matching(entries, pattern), i)
    case RegexRule(pattern, negate) => pattern.isMatch(entries[i].name) == negate
  }

  // ----------------------------------------------------------------- lifting

  /** `idx` lists the matching entries in order, `sub` is what it selects. */
  ghost predicate Selects(entries: seq<SnapshotEntry>, idx: seq<nat>, sub: seq<SnapshotEntry>, among: set<nat>) {
    && Ascending(idx) && |sub| == |idx|
    && (forall i: nat :: i in idx <==> i in among)
    && (forall k | 0 <= k < |idx| :: idx[k] < |entries| && sub[k] == entries[idx[k]])
  }

  lemma SelectedIndices(entries: seq<SnapshotEntry>, idx: seq<nat>, sub: seq<SnapshotEntry>, among: set<nat>)
    requires Selects(entries, idx, sub, among)
    ensures Indices(Times(entries), among)
    ensures forall k | 0 <= k < |idx| :: idx[k] in among && Times(sub)[k] == Times(entries)[idx[k]]
  {
    forall i | i in among
      ensures i < |entries|
    {
      var k := PositionOf(idx, i);
    }
    assert forall k | 0 <= k < |idx| :: idx[k] in idx;
  }

  lemma PositionOf(idx: seq<nat>, i: nat) returns (k: nat)
    requires i in idx
    ensures k < |idx| && idx[k] == i
  {
    k :| k < |idx| && idx[k] == i;
  }

  lemma LiftNewest(entries: seq<SnapshotEntry>, idx: seq<nat>, sub: seq<SnapshotEntry>, among: set<nat>)
    requires Selects(entries, idx, sub, among) && sub != []
    ensures Newest(Times(sub), All(|sub|)) == Newest(Times(entries), among)
  {
    SelectedIndices(entries, idx, sub, among);
    var c, d := Times(entries), Times(sub);
    assert 0 in All(|sub|);
    var newest := Newest(d, All(|sub|));
    var k: nat :| k in All(|sub|) && k < |d| && d[k] == newest.value;
    forall j | j in among
      ensures j < |c| && c[j] <= c[idx[k]]
    {
      var p := PositionOf(idx, j);
      assert p in All(|sub|) && d[p] == c[idx[p]];
      assert d[p] <= newest.value == c[idx[k]];
    }
    RetentionLaws.NewestIs(c, among, idx[k]);
  }

  lemma {:induction false} ImageSize(s: set<nat>, idx: seq<nat>)
    requires Ascending(idx) && forall k | k in s :: k < |idx|
    ensures |set k | k in s :: idx[k]| == |s|
  {
    var image := set k | k in s :: idx[k];
    if s == {} {
      assert image == {};
    } else {
      var x :| x in s;
      var rest := s - {x};
      ImageSize(rest, idx);
      assert image == (set k | k in rest :: idx[k]) + {idx[x]};
      assert idx[x] !in (set k | k in rest :: idx[k]);
    }
  }

  lemma LiftPeer(grid: GridSpec, entries: seq<SnapshotEntry>, idx: seq<nat>, sub: seq<SnapshotEntry>,
                 among: set<nat>, b: nat, j: nat, k: nat)
    requires Selects(entries, idx, sub, among) && Indices(Times(entries), among) && b < |grid| && j < |sub| && k < |sub|
    requires Newest(Times(sub), All(|sub|)) == Newest(Times(entries), among)
    ensures idx[j] in among
    ensures j in OlderPeers(grid, Times(sub), All(|sub|), b, k)
            <==> idx[j] in OlderPeers(grid, Times(entries), among, b, idx[k])
  {
    SelectedIndices(entries, idx, sub, among);
    LiftOlder(entries, idx, sub, among, j, k);
    assert j in All(|sub|);
    assert Age(Times(sub), All(|sub|), j) == Age(Times(entries), among, idx[j]);
  }

  lemma LiftPeers(grid: GridSpec, entries: seq<SnapshotEntry>, idx: seq<nat>, sub: seq<SnapshotEntry>,
                  among: set<nat>, b: nat, k: nat)
    requires Selects(entries, idx, sub, among) && Indices(Times(entries), among) && b < |grid| && k < |sub|
    requires Newest(Times(sub), All(|sub|)) == Newest(Times(entries), among)
    ensures |OlderPeers(grid, Times(sub), All(|sub|), b, k)| == |OlderPeers(grid, Times(entries), among, b, idx[k])|
  {
    var inner := OlderPeers(grid, Times(sub), All(|sub|), b, k);
    var outer := OlderPeers(grid, Times(entries), among, b, idx[k]);
    forall j | j in inner
      ensures j < |sub| && idx[j] in outer
    {
      LiftPeer(grid, entries, idx, sub, among, b, j, k);
    }
    forall i | i in outer
      ensures exists j :: j in inner && idx[j] == i
    {
      var j := PositionOf(idx, i);
      LiftPeer(grid, entries, idx, sub, among, b, j, k);
    }
    ImageSize(inner, idx);
    assert outer == (set j | j in inner :: idx[j]);
  }

  lemma LiftOlder(entries: seq<SnapshotEntry>, idx: seq<nat>, sub: seq<SnapshotEntry>, among: set<nat>, j: nat, k: nat)
    requires Selects(entries, idx, sub, among) && j < |idx| && k < |idx|
    ensures Older(Times(sub), j, k) <==> Older(Times(entries), idx[j], idx[k])
    ensures Times(sub)[j] == Times(entries)[idx[j]]
  {
  }

  lemma LiftKeptIn(grid: GridSpec, entries: seq<SnapshotEntry>, idx: seq<nat>, sub: seq<SnapshotEntry>,
                   among: set<nat>, b: nat, k: nat)
    requires Selects(entries, idx, sub, among) && Indices(Times(entries), among) && b < |grid| && k < |sub|
    ensures idx[k] in among
    ensures KeptIn(grid, Times(sub), All(|sub|), b, k) <==> KeptIn(grid, Times(entries), among, b, idx[k])
  {
    SelectedIndices(entries, idx, sub, among);
    LiftNewest(entries, idx, sub, among);
    LiftPeers(grid, entries, idx, sub, among, b, k);
    assert Age(Times(sub), All(|sub|), k) == Age(Times(entries), among, idx[k]);
  }

  /** Judging the matching sublist on its own is judging the matching entries
      where they stand: grid indices lift. */
  lemma LiftKept(grid: GridSpec, entries: seq<SnapshotEntry>, idx: seq<nat>, sub: seq<SnapshotEntry>,
                 among: set<nat>, k: nat)
    requires Selects(entries, idx, sub, among) && k < |sub|
    ensures Indices(Times(entries), among) && idx[k] in among
    ensures Kept(grid, Times(sub), All(|sub|), k) <==> Kept(grid, Times(entries), among, idx[k])
  {
    SelectedIndices(entries, idx, sub, among);
    if b: nat :| b < |grid| && KeptIn(grid, Times(sub), All(|sub|), b, k) {
      LiftKeptIn(grid, entries, idx, sub, among, b, k);
    }
    if b: nat :| b < |grid| && KeptIn(grid, Times(entries), among, b, idx[k]) {
      LiftKeptIn(grid, entries, idx, sub, among, b, k);
    }
  }

  // -------------------------------------------------------------- the methods

  method MatchingEntries(entries: seq<SnapshotEntry>, pattern: Pattern)
    returns (destroy: set<nat>, idx: seq<nat>, sub: seq<SnapshotEntry>)
    ensures Selects(entries, idx, sub, Matching(entries, pattern))
    ensures forall i: nat :: i in destroy <==> i < |entries| && !pattern.isMatch(entries[i].name)
  {
    destroy, idx, sub := {}, [], [];
    for i := 0 to |entries|
      invariant Ascending(idx) && |sub| == |idx|
      invariant forall j: nat :: j in idx <==> j < i && pattern.isMatch(entries[j].name)
      invariant forall k | 0 <= k < |idx| :: idx[k] < i && sub[k] == entries[idx[k]]
      invariant forall j: nat :: j in destroy <==> j < i && !pattern.isMatch(entries[j].name)
    {
      if pattern.isMatch(entries[i].name) {
        idx, sub := idx + [i], sub + [entries[i]];
      } else {
        destroy := destroy + {i};
      }
    }
  }

  method DestroySet(rule: KeepRule, entries: seq<SnapshotEntry>) returns (r: Result<set<nat>, PruneError>)
    ensures rule.pattern.valid ==>
              r.Ok? && forall i: nat :: i in r.value <==> i < |entries| && Destroys(rule, entries, i)
    ensures !rule.pattern.valid ==> r == Err(InvalidRegex(rule.pattern.text))
  {
    if !rule.pattern.valid {
      return Err(InvalidRegex(rule.pattern.text));
    }
    match rule {
      case GridRule(grid, pattern) =>
        var destroy, idx, sub := MatchingEntries(entries, pattern);
        ghost var among, unmatched := Matching(entries, pattern), destroy;
        if sub == [] {
          assert forall i: nat | i < |entries| :: i !in idx;
          return Ok(destroy);
        }
        var keep, inner := Fit(grid, sub);
        for n := 0 to |inner|
          invariant forall i: nat :: i in destroy <==>
                      i in unmatched || exists m :: 0 <= m < n && inner[m] < |idx| && idx[inner[m]] == i
        {
          assert inner[n] in inner;
          destroy := destroy + {idx[inner[n]]};
        }
        forall i: nat
          ensures i in destroy <==> i < |entries| && Destroys(rule, entries, i)
        {
          LiftedDestroy(grid, entries, pattern, idx, sub, inner, i);
        }
        return Ok(destroy);
      case RegexRule(pattern, negate) =>
        var destroy: set<nat> := {};
        for i := 0 to |entries|
          invariant forall j: nat :: j in destroy <==> j < i && Destroys(rule, entries, j)
        {
          var matches := pattern.isMatch(entries[i].name);
          var inDestroy := if negate then matches else !matches;
          if inDestroy {
            destroy := destroy + {i};
          }
        }
        return Ok(destroy);
    }
  }

  lemma LiftedDestroy(grid: GridSpec, entries: seq<SnapshotEntry>, pattern: Pattern, idx: seq<nat>,
                      sub: seq<SnapshotEntry>, inner: seq<nat>, i: nat)
    requires Selects(entries, idx, sub, Matching(entries, pattern))
    requires forall k: nat :: k in inner <==> k < |sub| && !Kept(grid, Times(sub), All(|sub|), k)
    ensures
      (|| (i < |entries| && !pattern.isMatch(entries[i].name))
       || exists m :: 0 <= m < |inner| && inner[m] < |idx| && idx[inner[m]] == i)
      <==> i < |entries| && Destroys(GridRule(grid, pattern), entries, i)
  {
    var among := Matching(entries, pattern);
    if i in among {
      assert i in idx;
      var k :| 0 <= k < |idx| && idx[k] == i;
      LiftKept(grid, entries, idx, sub, among, k);
      if k in inner {
        var m :| 0 <= m < |inner| && inner[m] == k;
      }
    }
    forall m | 0 <= m < |inner| && inner[m] < |idx| && idx[inner[m]] == i
      ensures i in among && !Kept(grid, Times(entries), among, i)
    {
      assert inner[m] in inner && idx[inner[m]] in idx;
      LiftKept(grid, entries, idx, sub, among, inner[m]);
    }
  }

  /** The rules of a prune: an entry goes exactly when there are rules and every
      one of them wants it gone. */
  ghost predicate Condemned(rules: seq<KeepRule>, entries: seq<SnapshotEntry>, i: nat) {
    && i < |entries| && rules != []
    && forall rule | rule in rules :: Destroys(rule, entries, i)
  }

  function Members(s: set<nat>, n: nat): (r: seq<nat>)
    ensures Ascending(r) && forall i: nat :: i in r <==> i in s && i < n
  {
    if n == 0 then []
    else if n - 1 in s then
      var rest := Members(s, n - 1);
      assert forall p | 0 <= p < |rest| :: rest[p] in rest;
      rest + [n - 1]
    else Members(s, n - 1)
  }

  /** `evaluate`: the intersection over every rule, in ascending order, or the
      first pattern that does not compile. */
  method Evaluate(rules: seq<KeepRule>, entries: seq<SnapshotEntry>) returns (r: Result<seq<nat>, PruneError>)
    ensures r.Ok? <==> forall rule | rule in rules :: rule.pattern.valid
    ensures r.Ok? ==> Ascending(r.value) && forall i: nat :: i in r.value <==> Condemned(rules, entries, i)
    ensures r.Err? ==> exists k :: 0 <= k < |rules| && !rules[k].pattern.valid
                                   && r.error == InvalidRegex(rules[k].pattern.text)
                                   && forall j | 0 <= j < k :: rules[j].pattern.valid
  {
    if rules == [] {
      return Ok([]);
    }
    var first := DestroySet(rules[0], entries);
    if first.Err? {
      return Err(first.error);
    }
    var acc := first.value;
    for n := 1 to |rules|
      invariant forall j | 0 <= j < n :: rules[j].pattern.valid
      invariant forall i: nat :: i in acc <==>
                  i < |entries| && forall j | 0 <= j < n :: Destroys(rules[j], entries, i)
    {
      var next := DestroySet(rules[n], entries);
      if next.Err? {
        return Err(next.error);
      }
      acc := acc * next.value;
    }
    return Ok(Members(acc, |entries|));
  }

  /** Adding a rule to a non-empty list never destroys more; to an empty one it
      can, since no rules means no pruning. */
  lemma AddingARuleDestroysNoMore(rules: seq<KeepRule>, rule: KeepRule, entries: seq<SnapshotEntry>, i: nat)
    requires Condemned(rules + [rule], entries, i)
    ensures rules != [] ==> Condemned(rules, entries, i)
    ensures Condemned([rule], entries, i)
  {
    assert forall x | x in rules :: x in rules + [rule];
    assert rule in rules + [rule];
  }

  // --------------------------------------------------------- default pruning

  /** `^<prefix>.*` with the prefix escaped. */
  function PrefixPattern(prefix: string): Pattern {
    Pattern("^" + prefix + ".*", true, name => prefix <= name)
  }

  function DefaultRules(grid: GridSpec, protectNonPrefixed: bool, prefix: string): seq<KeepRule> {
    [GridRule(grid, PrefixPattern(prefix))]
    + if protectNonPrefixed then [RegexRule(PrefixPattern(prefix), true)] else []
  }

  /** A snap job's rules: its own, or the defaults built against the prefix it
      snapshots with. */
  function SnapRules(own: seq<KeepRule>, defaults: Option<(GridSpec, bool)>, prefix: string): seq<KeepRule> {
    if own != [] || defaults.None? then own else DefaultRules(defaults.value.0, defaults.value.1, prefix)
  }

  /** With the default rules a job destroys a snapshot of another prefix exactly
      when `protect_non_prefixed` is off; its own go by the grid alone. */
  lemma DefaultRulesSpareOthers(grid: GridSpec, protect: bool, prefix: string, entries: seq<SnapshotEntry>, i: nat)
    requires i < |entries|
    ensures
      var rules := SnapRules([], Some((grid, protect)), prefix);
      Condemned(rules, entries, i) <==>
      if prefix <= entries[i].name
      then !Kept(grid, Times(entries), Matching(entries, PrefixPattern(prefix)), i)
      else !protect
  {
    var rules := DefaultRules(grid, protect, prefix);
    var g, x := GridRule(grid, PrefixPattern(prefix)), RegexRule(PrefixPattern(prefix), true);
    assert rules[0] == g && g in rules;
    if protect {
      assert rules[1] == x && x in rules;
    }
    assert forall rule | rule in rules :: rule == g || (protect && rule == x);
  }

  // ------------------------------------------------- the newest snapshot's fate

  /** `validate_snap` on one grid: no counted first bucket longer than the
      snapshot interval. */
  predicate FirstBucketOk(grid: GridSpec, interval: nat)
    requires grid != []
  {
    grid[0].keepCount.KeepAll? || grid[0].length <= interval
  }

  /** Under that check, a snapshot taken at least one interval after every other
      matching one survives the prune that follows it. */
  lemma NewestSurvivesItsPrune(rules: seq<KeepRule>, rule: KeepRule, entries: seq<SnapshotEntry>, m: nat, interval: nat)
    requires rule in rules && rule.GridRule? && ValidGrid(rule.grid) && FirstBucketOk(rule.grid, interval)
    requires m < |entries| && rule.pattern.isMatch(entries[m].name) && interval > 0
    requires forall j: nat | j < |entries| && j != m && rule.pattern.isMatch(entries[j].name) ::
               entries[j].creation <= entries[m].creation - interval
    ensures !Condemned(rules, entries, m)
  {
    var c, among, grid := Times(entries), Matching(entries, rule.pattern), rule.grid;
    RetentionLaws.NewestIs(c, among, m);
    assert grid[0] in grid;
    assert Edge(grid, 1) == Edge(grid, 0) + grid[0].length;
    if !grid[0].keepCount.KeepAll? {
      assert OlderPeers(grid, c, among, 0, m) == {};
    }
    assert KeptIn(grid, c, among, 0, m);
  }

  /** And the check is not idle: a grid that fails it with a count of one
      destroys a snapshot taken one interval after the previous. */
  lemma FailingTheCheckLosesTheNewest(grid: GridSpec, pattern: Pattern, entries: seq<SnapshotEntry>, interval: nat)
    requires ValidGrid(grid) && !FirstBucketOk(grid, interval) && grid[0].keepCount == Exactly(1)
    requires |entries| == 2 && pattern.isMatch(entries[0].name) && pattern.isMatch(entries[1].name)
    requires entries[1].creation == entries[0].creation + interval && interval > 0
    ensures Condemned([GridRule(grid, pattern)], entries, 1)
  {
    var c, among := Times(entries), Matching(entries, pattern);
    RetentionLaws.NewestIs(c, among, 1);
    assert Edge(grid, 1) == Edge(grid, 0) + grid[0].length;
    assert 0 in OlderPeers(grid, c, among, 0, 1);
    SubsetSize({0}, OlderPeers(grid, c, among, 0, 1));
    KeptOnlyIn(grid, c, among, 0, 1);
  }
}
