/**
 One push cycle against one peer (`run_for_peer` and `replicate_step` in
 `daemon/src/jobs/push/mod.rs`): datasets by depth, levels in sequence, any
 concurrency within a level, descendants of a failed first send held back.
 */
module PushCycle {
  import opened Wrappers
  import Plan

  function Depth(path: string): nat {
    if path == [] then 0 else Depth(path[..|path| - 1]) + if path[|path| - 1] == '/' then 1 else 0
  }

  predicate IsAncestor(ancestor: string, path: string) {
    |path| > |ancestor| && ancestor <= path && path[|ancestor|] == '/'
  }

  lemma {:induction false} DepthOfPrefix(path: string, n: nat)
    requires n <= |path|
    ensures Depth(path[..n]) <= Depth(path)
  {
    if n < |path| {
      DepthOfPrefix(path[..|path| - 1], n);
      assert path[..|path| - 1][..n] == path[..n];
    } else {
      assert path[..n] == path;
    }
  }

  lemma AncestorIsShallower(ancestor: string, path: string)
    requires IsAncestor(ancestor, path)
    ensures Depth(ancestor) < Depth(path)
  {
    var n := |ancestor|;
    DepthOfPrefix(path, n + 1);
    assert path[..n + 1][..n] == ancestor;
  }

  // ------------------------------------------------------------ depth levels

  /** The paths of depth `k`, in input order. */
  function AtDepth(paths: seq<string>, k: nat): (r: seq<string>)
    ensures forall p :: p in r <==> p in paths && Depth(p) == k
  {
    if paths == [] then []
    else
      var last := paths[|paths| - 1];
      assert paths == paths[..|paths| - 1] + [last];
      AtDepth(paths[..|paths| - 1], k) + if Depth(last) == k then [last] else []
  }

  /** Every path in the level of its depth, shallowest level first. */
  ghost predicate Layered(paths: seq<string>, levels: seq<seq<string>>) {
    && (forall i | 0 <= i < |levels| :: levels[i] != [] && levels[i] == AtDepth(paths, Depth(levels[i][0])))
    && (forall i, j | 0 <= i < j < |levels| :: Depth(levels[i][0]) < Depth(levels[j][0]))
    && forall p | p in paths :: exists i :: 0 <= i < |levels| && p in levels[i]
  }

  lemma AtDepthGrows(paths: seq<string>, n: nat, k: nat)
    requires n < |paths|
    ensures AtDepth(paths[..n + 1], k) == AtDepth(paths[..n], k) + if Depth(paths[n]) == k then [paths[n]] else []
  {
    assert paths[..n + 1][..n] == paths[..n];
  }

  method GroupByDepth(paths: seq<string>) returns (groups: map<nat, seq<string>>, deepest: nat)
    ensures forall k: nat :: k in groups <==> AtDepth(paths, k) != []
    ensures forall k | k in groups :: groups[k] == AtDepth(paths, k) && k <= deepest
  {
    groups, deepest := map[], 0;
    for n := 0 to |paths|
      invariant forall k: nat :: k in groups <==> AtDepth(paths[..n], k) != []
      invariant forall k | k in groups :: groups[k] == AtDepth(paths[..n], k) && k <= deepest
    {
      forall k: nat {
        AtDepthGrows(paths, n, k);
      }
      var d := Depth(paths[n]);
      groups := groups[d := (if d in groups then groups[d] else []) + [paths[n]]];
      deepest := if d > deepest then d else deepest;
    }
    assert paths[..|paths|] == paths;
  }

  lemma GroupIsUniform(paths: seq<string>, k: nat)
    ensures AtDepth(paths, k) != [] ==> Depth(AtDepth(paths, k)[0]) == k
  {
    if AtDepth(paths, k) != [] {
      assert AtDepth(paths, k)[0] in AtDepth(paths, k);
    }
  }

  /** `keys` are the depths below `n` that occur, ascending, and `levels` the
      paths that deep. */
  ghost predicate Keyed(paths: seq<string>, keys: seq<nat>, levels: seq<seq<string>>, n: nat) {
    && |keys| == |levels|
    && (forall i | 0 <= i < |keys| :: levels[i] == AtDepth(paths, keys[i]) != [])
    && (forall i, j | 0 <= i < j < |keys| :: keys[i] < keys[j])
    && (forall k: nat :: k in keys <==> k < n && AtDepth(paths, k) != [])
  }

  lemma NextKeyed(paths: seq<string>, keys: seq<nat>, levels: seq<seq<string>>, n: nat)
    requires Keyed(paths, keys, levels, n)
    ensures AtDepth(paths, n) == [] ==> Keyed(paths, keys, levels, n + 1)
    ensures AtDepth(paths, n) != [] ==> Keyed(paths, keys + [n], levels + [AtDepth(paths, n)], n + 1)
  {
    if AtDepth(paths, n) != [] {
      var more := keys + [n];
      forall i | 0 <= i < |keys|
        ensures more[i] == keys[i] < n
      {
        assert keys[i] in keys;
      }
      forall k: nat
        ensures k in more <==> k < n + 1 && AtDepth(paths, k) != []
      {
        assert k in more <==> k in keys || k == n;
      }
    }
  }

  lemma KeyedLevels(paths: seq<string>, keys: seq<nat>, levels: seq<seq<string>>, n: nat)
    requires Keyed(paths, keys, levels, n) && forall k: nat | AtDepth(paths, k) != [] :: k < n
    ensures Layered(paths, levels)
  {
    forall i | 0 <= i < |keys|
      ensures Depth(levels[i][0]) == keys[i]
    {
      GroupIsUniform(paths, keys[i]);
    }
    forall p | p in paths
      ensures exists i :: 0 <= i < |levels| && p in levels[i]
    {
      assert p in AtDepth(paths, Depth(p));
      var i :| 0 <= i < |keys| && keys[i] == Depth(p);
      assert p in levels[i];
    }
  }

  method DepthLevels(paths: seq<string>) returns (levels: seq<seq<string>>)
    ensures Layered(paths, levels)
  {
    var groups, deepest := GroupByDepth(paths);
    ghost var keys: seq<nat> := [];
    levels := [];
    // A `BTreeMap` yields its values by ascending key.
    for k := 0 to deepest + 1
      invariant Keyed(paths, keys, levels, k)
    {
      NextKeyed(paths, keys, levels, k);
      if k in groups {
        levels, keys := levels + [groups[k]], keys + [k];
      }
    }
    KeyedLevels(paths, keys, levels, deepest + 1);
  }

  function Flat(levels: seq<seq<string>>): seq<string> {
    if levels == [] then [] else levels[0] + Flat(levels[1..])
  }

  lemma {:induction false} CountAtDepth(paths: seq<string>, k: nat, p: string)
    ensures multiset(AtDepth(paths, k))[p] == if Depth(p) == k then multiset(paths)[p] else 0
  {
    if paths != [] {
      var rest, last := paths[..|paths| - 1], paths[|paths| - 1];
      CountAtDepth(rest, k, p);
      assert paths == rest + [last];
    }
  }

  /** Flattened levels from `n` on hold exactly the paths that deep. */
  lemma {:induction false} CountFlat(paths: seq<string>, levels: seq<seq<string>>, n: nat, p: string)
    requires Layered(paths, levels) && n <= |levels|
    ensures multiset(Flat(levels[n..]))[p]
            == if exists i :: n <= i < |levels| && Depth(levels[i][0]) == Depth(p) then multiset(paths)[p] else 0
    decreases |levels| - n
  {
    if n < |levels| {
      CountFlat(paths, levels, n + 1, p);
      CountAtDepth(paths, Depth(levels[n][0]), p);
      assert levels[n..][0] == levels[n] && levels[n..][1..] == levels[n + 1..];
    }
  }

  lemma LevelOf(paths: seq<string>, levels: seq<seq<string>>, p: string)
    requires Layered(paths, levels) && p in paths
    ensures exists i :: 0 <= i < |levels| && Depth(levels[i][0]) == Depth(p)
  {
    var i :| 0 <= i < |levels| && p in levels[i];
    assert Depth(levels[i][0]) == Depth(p);
  }

  /** Grouping by depth neither loses nor repeats a path. */
  lemma LevelsConserveThePaths(paths: seq<string>, levels: seq<seq<string>>)
    requires Layered(paths, levels)
    ensures multiset(Flat(levels)) == multiset(paths)
    ensures |Flat(levels)| == |paths|
  {
    assert levels[0..] == levels;
    var grouped, given := multiset(Flat(levels)), multiset(paths);
    forall p: string
      ensures grouped[p] == given[p]
    {
      CountFlat(paths, levels, 0, p);
      if p in paths {
        LevelOf(paths, levels, p);
      }
    }
    assert grouped == given;
    assert |grouped| == |given|;
  }

  // ---------------------------------------------------------------- the cycle

  /** What became of one opened or attempted stream. A failed receive may leave
      a partial target. */
  datatype Transfer = NotOpened | Failed(leftTarget: bool) | Landed

  /** `existing` holds the paths, selected or not, whose target exists;
      `unplanned` the selected ones that ended without a stream because a
      listing failed or nothing passed the snapshot filter; `placeholders` the
      selected ones whose target a descendant's receive had to create. */
  datatype Cycle = Cycle(
    later: seq<seq<string>>,
    depth: int,
    pending: seq<string>,
    running: set<string>,
    finished: set<string>,
    blocked: set<string>,
    queued: int,
    cancelled: bool,
    existing: set<string>,
    unplanned: set<string>,
    placeholders: set<string>)

  datatype Event =
    | NextLevel
    | Claim
    | Round(path: string, inputs: Option<Plan.Inputs>, transfer: Transfer)
    | Stop(path: string)
    | Cancel
    | Appear(path: string)

  function Ancestors(path: string): (r: set<string>)
    ensures forall a :: a in r <==> IsAncestor(a, path)
  {
    var r := set n: nat | n < |path| && path[n] == '/' :: path[..n];
    assert forall a | IsAncestor(a, path) :: a == path[..|a|];
    r
  }

  function Start(levels: seq<seq<string>>, total: nat, existing: set<string>): Cycle {
    Cycle(levels, -1, [], {}, {}, {}, total, false, existing, {}, {})
  }

  function Finish(s: Cycle, path: string): Cycle {
    s.(running := s.running - {path}, finished := s.finished + {path})
  }

  /** The receive of `path` first creates the missing ancestors of its target. */
  function Opened(paths: seq<string>, s: Cycle, path: string): Cycle {
    s.(existing := s.existing + Ancestors(path),
       placeholders := s.placeholders + (Ancestors(path) * Elements(paths) - s.existing))
  }

  /** One planning round of a running dataset. The reply it plans from agrees
      with the receiver. */
  function Plans(paths: seq<string>, s: Cycle, path: string, inputs: Option<Plan.Inputs>, transfer: Transfer): Cycle {
    if inputs.None? then Finish(s, path).(unplanned := s.unplanned + {path})
    else
      var planned := Plan.PlanOneFilesystem(inputs.value);
      if planned.Err? then Finish(s, path)
      else if planned.value.Nothing? then
        Finish(s, path).(unplanned := s.unplanned + if inputs.value.sender == [] then {path} else {})
      else
        var blocked := s.blocked + if planned.value.Full? then {path} else {};
        match transfer
        case NotOpened => Finish(s, path).(blocked := blocked)
        case Failed(left) =>
          var o := Opened(paths, s, path);
          Finish(o, path).(blocked := blocked, existing := o.existing + if left then {path} else {})
        case Landed =>
          var o := Opened(paths, s, path);
          o.(existing := o.existing + {path})
  }

  ghost predicate Enabled(parallel: nat, s: Cycle, e: Event) {
    match e
    case NextLevel => s.pending == [] && s.running == {} && s.later != []
    case Claim => s.pending != [] && (parallel == 0 || |s.running| < parallel)
    case Round(path, inputs, _) =>
      path in s.running
      && (inputs.Some? ==> Plan.ReplyShape(inputs.value) && inputs.value.targetExists == (path in s.existing))
    case Stop(path) => path in s.running && path in s.existing
    case Cancel => true
    case Appear(_) => true
  }

  function Next(paths: seq<string>, s: Cycle, e: Event): Cycle {
    match e
    case NextLevel =>
      if s.later == [] then s
      else s.(later := s.later[1..], pending := s.later[0],
              depth := if s.later[0] == [] then s.depth else Depth(s.later[0][0]))
    case Claim =>
      if s.pending == [] then s
      else
        var path := s.pending[0];
        var claimed := s.(pending := s.pending[1..], queued := s.queued - 1);
        if s.cancelled || exists b | b in s.blocked :: IsAncestor(b, path) then
          claimed.(finished := s.finished + {path})
        else claimed.(running := s.running + {path})
    case Round(path, inputs, transfer) => Plans(paths, s, path, inputs, transfer)
    case Stop(path) => Finish(s, path)
    case Cancel => s.(cancelled := true)
    case Appear(path) => s.(existing := s.existing + {path})
  }

  function After(paths: seq<string>, start: Cycle, events: seq<Event>): Cycle
    decreases |events|
  {
    if events == [] then start else Next(paths, After(paths, start, events[..|events| - 1]), events[|events| - 1])
  }

  /** Every event of the run can happen where it does. */
  ghost predicate Lawful(paths: seq<string>, parallel: nat, start: Cycle, events: seq<Event>)
    decreases |events|
  {
    events == []
    || (&& Lawful(paths, parallel, start, events[..|events| - 1])
        && Enabled(parallel, After(paths, start, events[..|events| - 1]), events[|events| - 1]))
  }

  // ------------------------------------------------------------- who is started

  /** The next dataset is started exactly when the cycle is not cancelled and no
      ancestor of it has a failed first send; otherwise it is done with. */
  lemma StartedIff(paths: seq<string>, s: Cycle)
    requires s.pending != []
    ensures var s', path := Next(paths, s, Claim), s.pending[0];
            && s'.pending == s.pending[1..] && s'.queued == s.queued - 1
            && s'.running + s'.finished == s.running + s.finished + {path}
            && (path !in s.running ==>
                  (path in s'.running <==> !s.cancelled && Ancestors(path) * s.blocked == {}))
            && (path !in s.finished ==>
                  (path in s'.finished <==> s.cancelled || Ancestors(path) * s.blocked != {}))
  {
    var path := s.pending[0];
    if b :| b in s.blocked && IsAncestor(b, path) {
      assert b in Ancestors(path) * s.blocked;
    }
  }

  /** A failed first send is one that was planned in full and did not land. */
  lemma BlockedIff(paths: seq<string>, s: Cycle, path: string, inputs: Option<Plan.Inputs>, transfer: Transfer, b: string)
    requires b !in s.blocked
    ensures b in Next(paths, s, Round(path, inputs, transfer)).blocked <==>
            && b == path && !transfer.Landed? && inputs.Some?
            && exists to, discard :: Plan.PlanOneFilesystem(inputs.value) == Ok(Plan.Full(to, discard))
  {
  }

  /** After a cancellation no dataset is started any more. */
  lemma {:induction false} NothingStartsAfterCancel(paths: seq<string>, s: Cycle, events: seq<Event>)
    requires s.cancelled
    ensures After(paths, s, events).cancelled && After(paths, s, events).running <= s.running
    decreases |events|
  {
    if events != [] {
      NothingStartsAfterCancel(paths, s, events[..|events| - 1]);
    }
  }

  // --------------------------------------------------------------- invariant

  ghost predicate Ordered(s: Cycle) {
    && (forall x | x in s.running || x in s.pending :: Depth(x) == s.depth)
    && (forall i, x | 0 <= i < |s.later| && x in s.later[i] :: Depth(x) == Depth(s.later[i][0]))
    && (forall i | 0 <= i < |s.later| :: s.later[i] != [] && s.depth < Depth(s.later[i][0]))
    && (forall i, j | 0 <= i < j < |s.later| :: Depth(s.later[i][0]) < Depth(s.later[j][0]))
  }

  ghost predicate Accounted(paths: seq<string>, s: Cycle) {
    && (forall x | x in paths ::
          x in s.finished || x in s.running || x in s.pending || exists i :: 0 <= i < |s.later| && x in s.later[i])
    && s.queued == |s.pending| + |Flat(s.later)|
  }

  ghost predicate HeldBack(s: Cycle, x: string) {
    exists b | b in s.blocked :: b == x || IsAncestor(b, x)
  }

  ghost predicate Settled(s: Cycle) {
    forall x | x in s.finished :: x in s.existing || x in s.unplanned || s.cancelled || HeldBack(s, x)
  }

  ghost predicate ParentsReady(paths: seq<string>, s: Cycle) {
    forall d, a | d in s.running && a in paths && IsAncestor(a, d) :: a in s.existing || a in s.unplanned
  }

  ghost predicate Inv(paths: seq<string>, s: Cycle) {
    && Ordered(s) && Accounted(paths, s) && Settled(s) && ParentsReady(paths, s)
    && s.placeholders <= s.unplanned
  }

  lemma ClaimKeepsParentsReady(paths: seq<string>, s: Cycle)
    requires Inv(paths, s) && s.pending != []
    ensures ParentsReady(paths, Next(paths, s, Claim))
  {
    var path := s.pending[0];
    forall a | a in paths && IsAncestor(a, path) && !s.cancelled && !exists b | b in s.blocked :: IsAncestor(b, path)
      ensures a in s.existing || a in s.unplanned
    {
      AncestorIsShallower(a, path);
      assert a in s.finished;
      forall b | b in s.blocked && (b == a || IsAncestor(b, a))
        ensures IsAncestor(b, path)
      {
      }
    }
  }

  lemma ClaimKeepsTheRest(paths: seq<string>, s: Cycle)
    requires Inv(paths, s) && s.pending != []
    ensures var s' := Next(paths, s, Claim);
            Ordered(s') && Accounted(paths, s') && Settled(s') && s'.placeholders <= s'.unplanned
  {
    var s' := Next(paths, s, Claim);
    assert s.pending == [s.pending[0]] + s.pending[1..];
    forall x | x in s'.finished
      ensures x in s'.existing || x in s'.unplanned || s'.cancelled || HeldBack(s', x)
    {
      assert x in s.finished ==> (HeldBack(s, x) ==> HeldBack(s', x));
    }
  }

  lemma NextLevelKeepsInvariant(paths: seq<string>, parallel: nat, s: Cycle)
    requires Inv(paths, s) && Enabled(parallel, s, NextLevel)
    ensures Inv(paths, Next(paths, s, NextLevel))
  {
    var s' := Next(paths, s, NextLevel);
    assert s.later[0] != [] && s.later[0][0] in s.later[0];
    assert forall i | 0 <= i < |s'.later| :: s'.later[i] == s.later[i + 1];
    forall x | x in paths
      ensures x in s'.finished || x in s'.running || x in s'.pending || exists i :: 0 <= i < |s'.later| && x in s'.later[i]
    {
      if i: nat :| i < |s.later| && x in s.later[i] {
        assert i == 0 || x in s'.later[i - 1];
      }
    }
    assert forall x | x in s.finished :: HeldBack(s, x) ==> HeldBack(s', x);
  }

  /** A running dataset may finish once its target exists, is recorded as
      unplanned, or is blocked. */
  lemma FinishKeepsInvariant(paths: seq<string>, s: Cycle, path: string, s': Cycle)
    requires Inv(paths, s) && path in s.running
    requires s' == Finish(s, path).(existing := s'.existing, unplanned := s'.unplanned, blocked := s'.blocked,
                                    placeholders := s'.placeholders)
    requires s.existing <= s'.existing && s.unplanned <= s'.unplanned && s.blocked <= s'.blocked
    requires s'.placeholders <= s'.unplanned
    requires path in s'.existing || path in s'.unplanned || path in s'.blocked
    ensures Inv(paths, s')
  {
    assert path in s'.blocked ==> HeldBack(s', path);
    forall x | x in s.finished && HeldBack(s, x)
      ensures HeldBack(s', x)
    {
      var b :| b in s.blocked && (b == x || IsAncestor(b, x));
      assert b in s'.blocked;
    }
  }

  /** A dataset that runs on with more targets in place. */
  lemma GrowthKeepsInvariant(paths: seq<string>, s: Cycle, s': Cycle)
    requires Inv(paths, s)
    requires s' == s.(existing := s'.existing, placeholders := s'.placeholders, cancelled := s'.cancelled)
    requires s.existing <= s'.existing && s'.placeholders <= s.unplanned && (s.cancelled ==> s'.cancelled)
    ensures Inv(paths, s')
  {
    assert forall x | x in s.finished :: HeldBack(s, x) ==> HeldBack(s', x);
  }

  /** What opening a stream creates on the way: only unplanned datasets. */
  lemma OpeningIsSafe(paths: seq<string>, s: Cycle, path: string)
    requires Inv(paths, s) && path in s.running
    ensures Ancestors(path) * Elements(paths) - s.existing <= s.unplanned
    ensures Opened(paths, s, path).placeholders <= s.unplanned
  {
  }

  lemma RoundKeepsInvariant(paths: seq<string>, parallel: nat, s: Cycle, e: Event)
    requires Inv(paths, s) && e.Round? && Enabled(parallel, s, e)
    ensures Inv(paths, Next(paths, s, e))
  {
    var s' := Next(paths, s, e);
    OpeningIsSafe(paths, s, e.path);
    if e.inputs.None? {
      FinishKeepsInvariant(paths, s, e.path, s');
    } else {
      var inp := e.inputs.value;
      var planned := Plan.PlanOneFilesystem(inp);
      if inp.sender != [] {
        Plan.FullIffTargetAbsent(inp);
      }
      if planned.Ok? && !planned.value.Nothing? && e.transfer.Landed? {
        GrowthKeepsInvariant(paths, s, s');
      } else {
        FinishKeepsInvariant(paths, s, e.path, s');
      }
    }
  }

  lemma NextKeepsInvariant(paths: seq<string>, parallel: nat, s: Cycle, e: Event)
    requires Inv(paths, s) && Enabled(parallel, s, e)
    ensures Inv(paths, Next(paths, s, e))
  {
    match e {
      case NextLevel => NextLevelKeepsInvariant(paths, parallel, s);
      case Claim => ClaimKeepsParentsReady(paths, s); ClaimKeepsTheRest(paths, s);
      case Round(_, _, _) => RoundKeepsInvariant(paths, parallel, s, e);
      case Stop(path) => FinishKeepsInvariant(paths, s, path, Next(paths, s, e));
      case Cancel => GrowthKeepsInvariant(paths, s, Next(paths, s, e));
      case Appear(_) => GrowthKeepsInvariant(paths, s, Next(paths, s, e));
    }
  }

  lemma {:induction false} RunKeepsInvariant(paths: seq<string>, levels: seq<seq<string>>, parallel: nat,
                                             existing: set<string>, events: seq<Event>)
    requires Layered(paths, levels) && Lawful(paths, parallel, Start(levels, |paths|, existing), events)
    ensures Inv(paths, After(paths, Start(levels, |paths|, existing), events))
    decreases |events|
  {
    if events == [] {
      LevelsConserveThePaths(paths, levels);
    } else {
      var rest := events[..|events| - 1];
      RunKeepsInvariant(paths, levels, parallel, existing, rest);
      NextKeepsInvariant(paths, parallel, After(paths, Start(levels, |paths|, existing), rest), events[|events| - 1]);
    }
  }

  // ------------------------------------------------------------ main results

  /** In every interleaving, while a dataset is being replicated each selected
      ancestor already has its target, unless planning that ancestor found no
      listing or nothing to send. */
  lemma ParentsComeFirst(paths: seq<string>, levels: seq<seq<string>>, parallel: nat, existing: set<string>,
                         events: seq<Event>)
    requires Layered(paths, levels) && Lawful(paths, parallel, Start(levels, |paths|, existing), events)
    ensures var s := After(paths, Start(levels, |paths|, existing), events);
            forall ancestor, path | path in s.running && ancestor in paths && IsAncestor(ancestor, path) ::
              ancestor in s.existing || ancestor in s.unplanned
  {
    RunKeepsInvariant(paths, levels, parallel, existing, events);
  }

  predicate PlanningSucceeds(events: seq<Event>) {
    forall e | e in events && e.Round? :: e.inputs.Some? && e.inputs.value.sender != []
  }

  lemma SuccessPlansOn(paths: seq<string>, s: Cycle, e: Event)
    requires e.Round? ==> e.inputs.Some? && e.inputs.value.sender != []
    ensures Next(paths, s, e).unplanned == s.unplanned
  {
  }

  lemma {:induction false} NothingUnplanned(paths: seq<string>, start: Cycle, events: seq<Event>)
    requires PlanningSucceeds(events)
    ensures After(paths, start, events).unplanned == start.unplanned
    decreases |events|
  {
    if events != [] {
      var rest := events[..|events| - 1];
      assert forall e | e in rest :: e in events;
      NothingUnplanned(paths, start, rest);
      assert events[|events| - 1] in events;
      SuccessPlansOn(paths, After(paths, start, rest), events[|events| - 1]);
    }
  }

  /** So where planning always finds something, no receive ever creates the
      target of a selected dataset on behalf of a descendant. */
  lemma NoPlaceholders(paths: seq<string>, levels: seq<seq<string>>, parallel: nat, existing: set<string>,
                       events: seq<Event>)
    requires Layered(paths, levels) && Lawful(paths, parallel, Start(levels, |paths|, existing), events)
    requires PlanningSucceeds(events)
    ensures After(paths, Start(levels, |paths|, existing), events).placeholders == {}
  {
    RunKeepsInvariant(paths, levels, parallel, existing, events);
    NothingUnplanned(paths, Start(levels, |paths|, existing), events);
  }

  /** The queue counter is the work not yet claimed: never below zero, and zero
      once nothing is left to claim. */
  lemma QueueNeverUnderflows(paths: seq<string>, levels: seq<seq<string>>, parallel: nat, existing: set<string>,
                             events: seq<Event>)
    requires Layered(paths, levels) && Lawful(paths, parallel, Start(levels, |paths|, existing), events)
    ensures var s := After(paths, Start(levels, |paths|, existing), events);
            && 0 <= s.queued <= |paths|
            && (Enabled(parallel, s, Claim) ==> s.queued > 0)
            && (s.pending == [] && s.later == [] ==> s.queued == 0)
  {
    RunKeepsInvariant(paths, levels, parallel, existing, events);
    QueueOnlyFalls(paths, Start(levels, |paths|, existing), events);
  }

  lemma QueueFalls(paths: seq<string>, s: Cycle, e: Event)
    ensures Next(paths, s, e).queued <= s.queued
  {
  }

  lemma {:induction false} QueueOnlyFalls(paths: seq<string>, start: Cycle, events: seq<Event>)
    ensures After(paths, start, events).queued <= start.queued
    decreases |events|
  {
    if events != [] {
      QueueOnlyFalls(paths, start, events[..|events| - 1]);
      QueueFalls(paths, After(paths, start, events[..|events| - 1]), events[|events| - 1]);
    }
  }

  // ------------------------------------------------- the hypothesis is needed

  lemma Then(paths: seq<string>, parallel: nat, start: Cycle, events: seq<Event>, e: Event)
    requires Lawful(paths, parallel, start, events) && Enabled(parallel, After(paths, start, events), e)
    ensures Lawful(paths, parallel, start, events + [e])
    ensures After(paths, start, events + [e]) == Next(paths, After(paths, start, events), e)
  {
    assert (events + [e])[..|events + [e]| - 1] == events;
  }

  const FAMILY := ["a", "a/b"]
  const GENERATIONS := [["a"], ["a/b"]]

  lemma FamilyIsLayered()
    ensures Layered(FAMILY, GENERATIONS)
  {
    assert FAMILY[..1] == ["a"] && FAMILY[..1][..0] == [];
    assert Depth("a") == 0 && Depth("a/b") == 1 by {
      assert "a/b"[..2] == "a/" && "a/"[..1] == "a" && "a"[..0] == "";
    }
    assert AtDepth(FAMILY, 0) == ["a"] && AtDepth(FAMILY, 1) == ["a/b"];
    assert FAMILY[0] in GENERATIONS[0] && FAMILY[1] in GENERATIONS[1];
  }

  /** What planning sees for a dataset whose target is absent. */
  function FirstSync(sender: seq<Plan.SnapshotEntry>): Plan.Inputs {
    Plan.Inputs(sender, [], false, None, None, [], Some([]), Plan.Latest)
  }

  /** The parent is done, with nothing on the receiver. */
  const PARENT_DONE := Cycle([["a/b"]], 0, [], {}, {"a"}, {}, 1, false, {}, {"a"}, {})

  lemma ParentWithNothingToSend() returns (events: seq<Event>)
    ensures Lawful(FAMILY, 1, Start(GENERATIONS, 2, {}), events)
    ensures After(FAMILY, Start(GENERATIONS, 2, {}), events) == PARENT_DONE
  {
    var start, e := Start(GENERATIONS, 2, {}), Round("a", Some(FirstSync([])), NotOpened);
    assert Depth("a") == 0 by {
      assert "a"[..0] == "";
    }
    Then(FAMILY, 1, start, [], NextLevel);
    events := [] + [NextLevel];
    assert After(FAMILY, start, events) == Cycle([["a/b"]], 0, ["a"], {}, {}, {}, 2, false, {}, {}, {});
    Then(FAMILY, 1, start, events, Claim);
    events := events + [Claim];
    assert After(FAMILY, start, events) == Cycle([["a/b"]], 0, [], {"a"}, {}, {}, 1, false, {}, {}, {});
    Then(FAMILY, 1, start, events, e);
    events := events + [e];
  }

  const CHILD_RUNNING := Cycle([], 1, [], {"a/b"}, {"a"}, {}, 0, false, {}, {"a"}, {})

  lemma ChildRuns() returns (events: seq<Event>)
    ensures Lawful(FAMILY, 1, Start(GENERATIONS, 2, {}), events)
    ensures After(FAMILY, Start(GENERATIONS, 2, {}), events) == CHILD_RUNNING
  {
    var start := Start(GENERATIONS, 2, {});
    assert Depth("a/b") == 1 by {
      assert "a/b"[..2] == "a/" && "a/"[..1] == "a" && "a"[..0] == "";
    }
    events := ParentWithNothingToSend();
    Then(FAMILY, 1, start, events, NextLevel);
    events := events + [NextLevel];
    assert After(FAMILY, start, events) == Cycle([], 1, ["a/b"], {}, {"a"}, {}, 1, false, {}, {"a"}, {});
    Then(FAMILY, 1, start, events, Claim);
    events := events + [Claim];
  }

  function ChildLands(): Event {
    Round("a/b", Some(FirstSync([Plan.SnapshotEntry("s", 1, 1)])), Landed)
  }

  lemma ChildCreatesItsParent()
    ensures Enabled(1, CHILD_RUNNING, ChildLands())
    ensures Next(FAMILY, CHILD_RUNNING, ChildLands()).placeholders == {"a"}
  {
    Plan.FullIffTargetAbsent(ChildLands().inputs.value);
    assert IsAncestor("a", "a/b") && FAMILY[0] == "a" && FAMILY[1] == "a/b";
    assert Ancestors("a/b") * Elements(FAMILY) == {"a"};
  }

  /** A parent with nothing to send, here because no snapshot passes the filter,
      is left as a placeholder by its child. */
  lemma EmptyParentLeavesPlaceholder()
    ensures Layered(FAMILY, GENERATIONS)
    ensures exists events :: Lawful(FAMILY, 1, Start(GENERATIONS, 2, {}), events)
                             && After(FAMILY, Start(GENERATIONS, 2, {}), events).placeholders == {"a"}
  {
    FamilyIsLayered();
    ChildCreatesItsParent();
    var events := ChildRuns();
    Then(FAMILY, 1, Start(GENERATIONS, 2, {}), events, ChildLands());
  }
}
