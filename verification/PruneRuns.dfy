/**
 The retention laws over runs, for the prune that `evaluate` decides: each pass
 takes a newer snapshot, lists what is there, matching and not, and destroys at
 most what every rule condemns.
 */
module PruneRuns {
  import opened Wrappers
  import opened Retention
  import opened Prune
  import RetentionLaws

  /** One pass. `taken` is the new snapshot and `listing` what the dataset shows
      with it. `matching` are the listed entries the pattern accepts; they stand
      at `pos` in the listing and at `hist` in the history of all matching
      snapshots ever taken. `survivors` indexes that history. */
  datatype Pass = Pass(taken: SnapshotEntry, listing: seq<SnapshotEntry>, matching: seq<SnapshotEntry>,
                       pos: seq<nat>, hist: seq<nat>, survivors: set<nat>)

  /** The pass sees the matching snapshots that are `live` in the history `all`,
      and destroys none that `evaluate` does not condemn; holds may spare more. */
  ghost predicate Obeys(rules: seq<KeepRule>, rule: KeepRule, all: seq<SnapshotEntry>, live: set<nat>, p: Pass) {
    && rule in rules && rule.GridRule?
    && Indices(Times(all), live)
    && (forall e | e in all :: e.creation < p.taken.creation)
    && Selects(all + [p.taken], p.hist, p.matching, live + {|all|})
    && Selects(p.listing, p.pos, p.matching, Matching(p.listing, rule.pattern))
    && p.survivors <= live + {|all|}
    && forall k | 0 <= k < |p.matching| && !Condemned(rules, p.listing, p.pos[k]) :: p.hist[k] in p.survivors
  }

  /** Nothing condemned is spared. */
  ghost predicate Thorough(rules: seq<KeepRule>, p: Pass) {
    forall k | 0 <= k < |p.pos| && k < |p.hist| && p.hist[k] in p.survivors :: !Condemned(rules, p.listing, p.pos[k])
  }

  /** What the grid keeps of the history is kept in the listing, so `evaluate`
      leaves it. */
  lemma KeptIsNotCondemned(rules: seq<KeepRule>, rule: KeepRule, all: seq<SnapshotEntry>, live: set<nat>, p: Pass, k: nat)
    requires Obeys(rules, rule, all, live, p) && k < |p.matching|
    ensures Indices(Times(all + [p.taken]), live + {|all|}) && p.hist[k] in live + {|all|}
    ensures p.pos[k] < |p.listing|
    ensures Kept(rule.grid, Times(all + [p.taken]), live + {|all|}, p.hist[k]) <==> !Destroys(rule, p.listing, p.pos[k])
    ensures Kept(rule.grid, Times(all + [p.taken]), live + {|all|}, p.hist[k]) ==> !Condemned(rules, p.listing, p.pos[k])
  {
    LiftKept(rule.grid, all + [p.taken], p.hist, p.matching, live + {|all|}, k);
    LiftKept(rule.grid, p.listing, p.pos, p.matching, Matching(p.listing, rule.pattern), k);
    assert p.pos[k] in Matching(p.listing, rule.pattern);
  }

  lemma TimesAppend(all: seq<SnapshotEntry>, e: SnapshotEntry)
    ensures Times(all + [e]) == Times(all) + [e.creation]
  {
  }

  lemma KeptSurvive(rules: seq<KeepRule>, rule: KeepRule, all: seq<SnapshotEntry>, live: set<nat>, p: Pass)
    requires Obeys(rules, rule, all, live, p)
    ensures Indices(Times(all + [p.taken]), live + {|all|})
    ensures KeptSet(rule.grid, Times(all + [p.taken]), live + {|all|}) <= p.survivors
  {
    SelectedIndices(all + [p.taken], p.hist, p.matching, live + {|all|});
    forall i | i in KeptSet(rule.grid, Times(all + [p.taken]), live + {|all|})
      ensures i in p.survivors
    {
      assert i in p.hist;
      var k := PositionOf(p.hist, i);
      KeptIsNotCondemned(rules, rule, all, live, p, k);
    }
  }

  /** A pass that obeys its rules is a round of the grid alone, at least as
      sparing. */
  lemma PassIsARound(rules: seq<KeepRule>, rule: KeepRule, all: seq<SnapshotEntry>, live: set<nat>, p: Pass)
    requires Obeys(rules, rule, all, live, p)
    ensures RetentionLaws.Prunes(rule.grid, Times(all), live, RetentionLaws.Round(p.taken.creation, p.survivors))
  {
    KeptSurvive(rules, rule, all, live, p);
    TimesAppend(all, p.taken);
    assert forall i | 0 <= i < |all| :: all[i] in all;
  }

  lemma SparedIsKept(rule: KeepRule, all: seq<SnapshotEntry>, live: set<nat>, p: Pass, k: nat)
    requires Obeys([rule], rule, all, live, p) && k < |p.matching| && !Condemned([rule], p.listing, p.pos[k])
    ensures Indices(Times(all + [p.taken]), live + {|all|}) && p.hist[k] in live + {|all|}
    ensures p.hist[k] in KeptSet(rule.grid, Times(all + [p.taken]), live + {|all|})
  {
    KeptIsNotCondemned([rule], rule, all, live, p, k);
    assert !Destroys(rule, p.listing, p.pos[k]);
  }

  /** With no other rule and nothing held, it is exactly such a round. */
  lemma LonePassIsARuleAlone(rule: KeepRule, all: seq<SnapshotEntry>, live: set<nat>, p: Pass)
    requires Obeys([rule], rule, all, live, p)
    requires Thorough([rule], p)
    ensures RetentionLaws.Prunes(rule.grid, Times(all), live, RetentionLaws.Round(p.taken.creation, p.survivors))
    ensures RetentionLaws.RuleAlone(rule.grid, Times(all), live, RetentionLaws.Round(p.taken.creation, p.survivors))
  {
    PassIsARound([rule], rule, all, live, p);
    KeptSurvive([rule], rule, all, live, p);
    SurvivorsAreKept(rule, all, live, p);
    TimesAppend(all, p.taken);
  }

  lemma SurvivorsAreKept(rule: KeepRule, all: seq<SnapshotEntry>, live: set<nat>, p: Pass)
    requires Obeys([rule], rule, all, live, p)
    requires Thorough([rule], p)
    ensures Indices(Times(all + [p.taken]), live + {|all|})
    ensures p.survivors <= KeptSet(rule.grid, Times(all + [p.taken]), live + {|all|})
  {
    SelectedIndices(all + [p.taken], p.hist, p.matching, live + {|all|});
    forall i | i in p.survivors
      ensures i in KeptSet(rule.grid, Times(all + [p.taken]), live + {|all|})
    {
      assert i in p.hist;
      var k := PositionOf(p.hist, i);
      SparedIsKept(rule, all, live, p, k);
    }
  }

  /** A run of passes, each starting from what the one before left. */
  ghost predicate Run(rules: seq<KeepRule>, rule: KeepRule, all: seq<SnapshotEntry>, live: set<nat>, passes: seq<Pass>)
    decreases |passes|
  {
    && Indices(Times(all), live)
    && (passes == [] || (&& Obeys(rules, rule, all, live, passes[0])
                         && Run(rules, rule, all + [passes[0].taken], passes[0].survivors, passes[1..])))
  }

  function RoundsOf(passes: seq<Pass>): seq<RetentionLaws.Round> {
    seq(|passes|, i requires 0 <= i < |passes| => RetentionLaws.Round(passes[i].taken.creation, passes[i].survivors))
  }

  lemma {:induction false} RunIsRounds(rules: seq<KeepRule>, rule: KeepRule, all: seq<SnapshotEntry>, live: set<nat>,
                                       passes: seq<Pass>)
    requires Run(rules, rule, all, live, passes) && rule.GridRule?
    ensures RetentionLaws.Rounds(rule.grid, Times(all), live, RoundsOf(passes))
    decreases |passes|
  {
    if passes != [] {
      PassIsARound(rules, rule, all, live, passes[0]);
      TimesAppend(all, passes[0].taken);
      RunIsRounds(rules, rule, all + [passes[0].taken], passes[0].survivors, passes[1..]);
      assert RoundsOf(passes)[1..] == RoundsOf(passes[1..]);
    }
  }

  /** Main result: whatever other rules and holds there are, over any run of
      passes the oldest matching snapshot is not destroyed before its age reaches
      the grid's window. */
  lemma OldestSurvivesPrunes(rules: seq<KeepRule>, rule: KeepRule, all: seq<SnapshotEntry>, live: set<nat>,
                             passes: seq<Pass>, o: nat)
    requires Run(rules, rule, all, live, passes) && passes != []
    requires rule.GridRule? && ValidGrid(rule.grid) && RetentionLaws.IsOldest(Times(all), live, o)
    requires passes[|passes| - 1].taken.creation - Times(all)[o] < Window(rule.grid)
    ensures o in passes[|passes| - 1].survivors
  {
    RunIsRounds(rules, rule, all, live, passes);
    RetentionLaws.OldestSurvivesRounds(rule.grid, Times(all), live, RoundsOf(passes), o);
  }
}
