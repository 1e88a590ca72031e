/**
 Why the witness needs quiet runs: four runs of the push protocol, each breaking
 one of the conditions, at whose end the sender cannot name what the receiver
 has.
 */
module WitnessLimits {
  import opened Wrappers
  import opened Plan
  import opened Protocol
  import Names

  lemma {:induction false} RunAppend(c: Config, s: State, first: seq<Event>, second: seq<Event>)
    requires Run(c, s, first).Some?
    ensures Run(c, s, first + second) == Run(c, Run(c, s, first).value, second)
    decreases |first|
  {
    if first == [] {
      assert first + second == second;
    } else {
      assert (first + second)[1..] == first[1..] + second;
      RunAppend(c, Next(c, s, first[0]).value, first[1..], second);
    }
  }

  ghost predicate Reaches(c: Config, s: State, s': State) {
    exists events :: Run(c, s, events) == Some(s')
  }

  lemma Start(c: Config, s: State)
    ensures Reaches(c, s, s)
  {
    assert Run(c, s, []) == Some(s);
  }

  lemma Then(c: Config, start: State, s: State, e: Event, s': State)
    requires Reaches(c, start, s) && Next(c, s, e) == Some(s')
    ensures Reaches(c, start, s')
  {
    var events :| Run(c, start, events) == Some(s);
    RunAppend(c, start, events, [e]);
    assert Run(c, s, [e]) == Some(s');
  }

  const SNAP_A := SnapshotEntry("a", 1, 1)
  const SNAP_B := SnapshotEntry("b", 2, 2)
  const SNAP_C := SnapshotEntry("c", 3, 3)

  lemma PlanFromA(list: seq<SnapshotEntry>, present: bool, mode: ReplicateMode)
    requires list == [SNAP_A, SNAP_B] || list == [SNAP_A, SNAP_B, SNAP_C]
    ensures
      var last := list[|list| - 1];
      PlanOneFilesystem(Inputs(list, [1], present, None, None, [], None, mode))
      == Ok(if mode == All && |list| == 3 then IncrementalAll(SnapRef(SNAP_A), SnapRef(last), false)
            else Incremental(SnapRef(SNAP_A), SnapRef(last), false))
  {
    assert [SNAP_A, SNAP_B, SNAP_C][..2] == [SNAP_A, SNAP_B];
    assert [SNAP_A, SNAP_B][..1] == [SNAP_A];
    assert LastCommon([SNAP_A], [1]) == Some(0);
    assert LastCommon([SNAP_A, SNAP_B], [1]) == Some(0);
    assert LastCommon([SNAP_A, SNAP_B, SNAP_C], [1]) == Some(0);
  }

  lemma {:induction false} SelectAll(snaps: seq<SnapshotEntry>, matching: set<nat>)
    requires forall x | x in snaps :: x.guid in matching
    ensures Select(snaps, matching) == snaps
  {
    if snaps != [] {
      var init := snaps[..|snaps| - 1];
      assert snaps == init + [snaps[|snaps| - 1]];
      SelectAll(init, matching);
    }
  }

  function TokenlessInputs(c: Config, s: State, list: seq<SnapshotEntry>): Inputs {
    Inputs(list, s.recv.snaps, s.recv.present, None, None, [], None, c.mode)
  }

  lemma DecideOnTokenless(c: Config, s: State, list: seq<SnapshotEntry>, plan: SnapshotPlan)
    requires s.phase == Replied(list, TokenlessInputs(c, s, list)) && !plan.Nothing?
    requires PlanOneFilesystem(TokenlessInputs(c, s, list)) == Ok(plan)
    ensures Next(c, s, Decide(false, [], false)) == Some(s.(phase := Planned(list, plan)))
  {
    assert s.phase.inp.(decoded := None, tokenBookmarks := [], fallback := None) == s.phase.inp;
  }

  lemma SenderListed(c: Config, s: State)
    requires s.phase.Idle? && Select(s.snaps, s.matching) == s.snaps
    ensures Next(c, s, ListSender) == Some(s.(phase := Listed(s.snaps)))
  {
    var e := ListSender;
    assert !EnvironmentEvent(e) && !ReceiveEvent(e) && Next(c, s, e) == Planning(c, s, e);
  }

  lemma ReceiverListed(c: Config, s: State, list: seq<SnapshotEntry>)
    requires s.phase == Listed(list)
    ensures Next(c, s, ListReceiver(false)) == Some(s.(phase := Replied(list, TokenlessInputs(c, s, list))))
  {
  }

  lemma PrepareRound(c: Config, s: State, plan: SnapshotPlan)
    requires plan.Delta() && !plan.discard
    ensures Next(c, s.(phase := Planned(s.snaps, plan)), Prepare)
            == Some(s.(phase := Placing(s.snaps, plan, HoldTargets(s.snaps, plan))))
  {
  }

  /** One planning round over a receiver that shows no token. */
  lemma PlanningRound(c: Config, start: State, s: State, s1: State, s2: State, s3: State, s4: State)
    requires Reaches(c, start, s)
    requires Next(c, s, ListSender) == Some(s1)
    requires Next(c, s1, ListReceiver(false)) == Some(s2)
    requires Next(c, s2, Decide(false, [], false)) == Some(s3)
    requires Next(c, s3, Prepare) == Some(s4)
    ensures Reaches(c, start, s4)
  {
    Then(c, start, s, ListSender, s1);
    Then(c, start, s1, ListReceiver(false), s2);
    Then(c, start, s2, Decide(false, [], false), s3);
    Then(c, start, s3, Prepare, s4);
  }

  lemma PlacingRound(c: Config, start: State, s: State, list: seq<SnapshotEntry>, plan: SnapshotPlan, from: nat, to: nat)
    requires Reaches(c, start, s) && s.phase == Placing(list, plan, [from, to])
    requires from in Guids(s.snaps) && to in Guids(s.snaps)
    ensures Reaches(c, start, s.(stepHeld := s.stepHeld + {from, to}, phase := Placing(list, plan, [])))
  {
    assert [from, to][1..] == [to] && [to][1..] == [];
    var s1 := s.(stepHeld := s.stepHeld + {from}, phase := Placing(list, plan, [to]));
    var s2 := s.(stepHeld := s.stepHeld + {from, to}, phase := Placing(list, plan, []));
    assert s1.stepHeld + {to} == s2.stepHeld;
    Then(c, start, s, Place, s1);
    Then(c, start, s1, Place, s2);
  }

  /** Both ends of a snapshot delta get the hold; every other holder is stale. */
  lemma HoldingRound(c: Config, start: State, s: State, plan: SnapshotPlan, held: set<nat>, stale: set<nat>)
    requires Reaches(c, start, s)
    requires plan.Incremental? || plan.IncrementalAll?
    requires s.phase == Placing(s.snaps, plan, HoldTargets(s.snaps, plan))
    requires plan.from.guid in Guids(s.snaps) && plan.to.guid in Guids(s.snaps)
    requires held == s.stepHeld + {plan.from.guid, plan.to.guid}
    requires stale == Guids(s.snaps) * held - {plan.from.guid, plan.to.guid}
    ensures Reaches(c, start, s.(stepHeld := held, phase := Sweeping(s.snaps, plan, stale)))
  {
    var from, to := plan.from.guid, plan.to.guid;
    assert s.phase.todo == [from, to];
    PlacingRound(c, start, s, s.snaps, plan, from, to);
    var s2 := s.(stepHeld := held, phase := Placing(s.snaps, plan, []));
    assert Keep(s.snaps, plan) == {from, to};
    assert (Guids(s.snaps) + {from, to}) * held - {from, to} == stale;
    Then(c, start, s2, ListHolds(true), s.(stepHeld := held, phase := Sweeping(s.snaps, plan, stale)));
  }

  ghost predicate StepPlan(c: Config, s: State, plan: SnapshotPlan) {
    && s.phase.Idle? && s.recv.snaps == [1]
    && (s.snaps == [SNAP_A, SNAP_B] || s.snaps == [SNAP_A, SNAP_B, SNAP_C])
    && (forall x | x in s.snaps :: x.guid in s.matching)
    && plan == if c.mode == All && |s.snaps| == 3
               then IncrementalAll(SnapRef(SNAP_A), SnapRef(s.snaps[|s.snaps| - 1]), false)
               else Incremental(SnapRef(SNAP_A), SnapRef(s.snaps[|s.snaps| - 1]), false)
  }

  /** A step that starts at `a`, up to the sweep. */
  lemma StepFromA(c: Config, start: State, s: State, plan: SnapshotPlan, held: set<nat>, stale: set<nat>)
    requires Reaches(c, start, s) && StepPlan(c, s, plan)
    requires held == s.stepHeld + {1, plan.to.guid}
    requires stale == Guids(s.snaps) * held - {1, plan.to.guid}
    ensures Reaches(c, start, s.(stepHeld := held, phase := Sweeping(s.snaps, plan, stale)))
  {
    SelectAll(s.snaps, s.matching);
    PlanFromA(s.snaps, s.recv.present, c.mode);
    var replied := s.(phase := Replied(s.snaps, TokenlessInputs(c, s, s.snaps)));
    DecideOnTokenless(c, replied, s.snaps, plan);
    SenderListed(c, s);
    ReceiverListed(c, s.(phase := Listed(s.snaps)), s.snaps);
    PrepareRound(c, s, plan);
    PlanningRound(c, start, s, s.(phase := Listed(s.snaps)), replied, s.(phase := Planned(s.snaps, plan)),
                  s.(phase := Placing(s.snaps, plan, HoldTargets(s.snaps, plan))));
    assert SNAP_A in s.snaps && s.snaps[|s.snaps| - 1] in s.snaps;
    HoldingRound(c, start, s.(phase := Placing(s.snaps, plan, HoldTargets(s.snaps, plan))), plan, held, stale);
  }

  /** The stream is over: the receiver answers and the sender sees it. */
  lemma AnswerRound(c: Config, start: State, s: State, list: seq<SnapshotEntry>, to: nat)
    requires Reaches(c, start, s) && s.phase == Streaming(list, to, false) && s.recv.channel.HandingOver?
    ensures Reaches(c, start, s.(recv := s.recv.(channel := NoChannel), phase := Sent(list, to)))
  {
    var answered := s.(recv := s.recv.(channel := NoChannel), phase := Streaming(list, to, true));
    Then(c, start, s, Answer, answered);
    Then(c, start, answered, SeeAnswer, s.(recv := answered.recv, phase := Sent(list, to)));
  }

  function CursorOf(c: Config, s: State, to: nat): BookmarkRef
    requires to in s.born
  {
    BookmarkRef(Names.CursorLeaf(to, c.job, c.peer), to, s.born[to])
  }

  /** The first commit of a pair is done: one cursor, no holds. */
  function Committed(c: Config, s: State, to: nat): State
    requires to in s.born
  {
    s.(bookmarks := [CursorOf(c, s, to)], stepHeld := {}, phase := Idle)
  }

  lemma CursorRound(c: Config, start: State, s: State, list: seq<SnapshotEntry>, to: nat)
    requires Reaches(c, start, s) && s.phase == Sent(list, to) && s.bookmarks == []
    requires to in Guids(s.snaps) && to in s.born
    ensures Reaches(c, start, s.(bookmarks := [CursorOf(c, s, to)], phase := DroppingCursors(list, to, {})))
  {
    var leaf := Names.CursorLeaf(to, c.job, c.peer);
    assert DropLeaf([], leaf) + [CursorOf(c, s, to)] == [CursorOf(c, s, to)];
    assert StaleLeaves(c, [CursorOf(c, s, to)], leaf) == {};
    Then(c, start, s, CreateCursor(true, false, true),
         s.(bookmarks := [CursorOf(c, s, to)], phase := DroppingCursors(list, to, {})));
  }

  lemma TagsRound(c: Config, start: State, s: State, list: seq<SnapshotEntry>, from: nat, to: nat)
    requires Reaches(c, start, s) && s.phase == DroppingCursors(list, to, {})
    requires s.stepHeld == {from, to} && from in Guids(list)
    ensures Reaches(c, start, s.(phase := Releasing({from, to})))
  {
    assert (Guids(list) + {to}) * {from, to} == {from, to};
    Then(c, start, s, ListTags(true), s.(phase := Releasing({from, to})));
  }

  lemma ReleaseRound(c: Config, start: State, s: State, from: nat, to: nat)
    requires Reaches(c, start, s) && s.phase == Releasing({from, to}) && s.stepHeld == {from, to} && from != to
    ensures Reaches(c, start, s.(stepHeld := {}, phase := Releasing({})))
  {
    assert {from, to} - {from} == {to} && {to} - {to} == {};
    Then(c, start, s, Release(from, true), s.(stepHeld := {to}, phase := Releasing({to})));
    Then(c, start, s.(stepHeld := {to}, phase := Releasing({to})), Release(to, true),
         s.(stepHeld := {}, phase := Releasing({})));
  }

  lemma FinishRound(c: Config, start: State, s: State)
    requires Reaches(c, start, s.(phase := Releasing({})))
    ensures Reaches(c, start, s.(phase := Idle))
  {
    Then(c, start, s.(phase := Releasing({})), Finish, s.(phase := Idle));
  }

  lemma CommitRound(c: Config, start: State, s: State, list: seq<SnapshotEntry>, from: nat, to: nat)
    requires Reaches(c, start, s) && s.phase == Sent(list, to) && s.bookmarks == []
    requires to in Guids(s.snaps) && to in s.born
    requires from != to && s.stepHeld == {from, to} && from in Guids(list)
    ensures Reaches(c, start, Committed(c, s, to))
  {
    CursorRound(c, start, s, list, to);
    var s1 := s.(bookmarks := [CursorOf(c, s, to)], phase := DroppingCursors(list, to, {}));
    TagsRound(c, start, s1, list, from, to);
    ReleaseRound(c, start, s1.(phase := Releasing({from, to})), from, to);
    FinishRound(c, start, s1.(stepHeld := {}));
  }

  /** The receiver holds `a`; the sender has taken `b` since. */
  const BEHIND := State(map[1 := 1, 2 := 2], {1, 2}, {1, 2}, [SNAP_A, SNAP_B], [], {},
                        Receiver([1], true, {}, None, NoChannel, {}), Idle, false)

  /** The link dropped while the receiver still ingests `b`; then `c` was taken. */
  const ORPHANED := State(map[1 := 1, 2 := 2, 3 := 3], {1, 2, 3}, {1, 2, 3}, [SNAP_A, SNAP_B, SNAP_C], [], {1, 2},
                          Receiver([1], true, {}, None, Ingesting(Stream(Some(1), [], 2)), {}), Idle, false)

  /** The next step read the receiver too early, swept the hold on `b` and was
      refused admission; `b` was pruned, and only then its stream landed. */
  const LOST := State(map[1 := 1, 2 := 2, 3 := 3], {1, 2, 3}, {1, 2, 3}, [SNAP_A, SNAP_C], [], {1, 3},
                      Receiver([1, 2], true, {2}, None, HandingOver(2, true), {}), Idle, true)

  const BEHIND_PLAN := Incremental(SnapRef(SNAP_A), SnapRef(SNAP_B), false)

  /** The stream of `b` is running. */
  const BEHIND_STREAMING :=
    BEHIND.(stepHeld := {1, 2}, recv := BEHIND.recv.(channel := Ingesting(Stream(Some(1), [], 2))),
            phase := Streaming(BEHIND.snaps, 2, false))

  const BEHIND_SWEPT := BEHIND.(stepHeld := {1, 2}, phase := Sweeping(BEHIND.snaps, BEHIND_PLAN, {}))

  lemma BehindIsSwept(c: Config)
    requires c.mode == Latest
    ensures Reaches(c, BEHIND, BEHIND_SWEPT)
  {
    assert Guids(BEHIND.snaps) * {1, 2} - {1, 2} == {};
    Start(c, BEHIND);
    StepFromA(c, BEHIND, BEHIND, BEHIND_PLAN, {1, 2}, {});
  }

  lemma BehindStreams(c: Config)
    requires c.mode == Latest
    ensures Reaches(c, BEHIND, BEHIND_STREAMING)
  {
    BehindIsSwept(c);
    Then(c, BEHIND, BEHIND_SWEPT, OpenRecv, BEHIND_STREAMING);
  }

  lemma BehindReachesOrphaned(c: Config)
    requires c.mode == Latest
    ensures Reaches(c, BEHIND, ORPHANED)
  {
    BehindStreams(c);
    var idle := BEHIND_STREAMING.(phase := Idle);
    Then(c, BEHIND, BEHIND_STREAMING, GiveUp, idle);
    assert {1, 2} + {3} == {1, 2, 3} && [SNAP_A, SNAP_B] + [SNAP_C] == ORPHANED.snaps;
    assert idle.born[3 := 3] == ORPHANED.born;
    Then(c, BEHIND, idle, TakeSnapshot(SNAP_C, true), ORPHANED);
  }

  const ORPHANED_PLAN := Incremental(SnapRef(SNAP_A), SnapRef(SNAP_C), false)

  const ORPHANED_SWEEPING :=
    ORPHANED.(stepHeld := {1, 2, 3}, phase := Sweeping(ORPHANED.snaps, ORPHANED_PLAN, {2}))

  lemma OrphanedSweeps(c: Config)
    requires c.mode == Latest
    ensures Reaches(c, ORPHANED, ORPHANED_SWEEPING)
  {
    assert SNAP_B in ORPHANED.snaps;
    assert Guids(ORPHANED.snaps) * {1, 2, 3} - {1, 3} == {2};
    Start(c, ORPHANED);
    StepFromA(c, ORPHANED, ORPHANED, ORPHANED_PLAN, {1, 2, 3}, {2});
  }

  lemma OrphanedReachesSwept(c: Config)
    requires c.mode == Latest
    ensures Reaches(c, ORPHANED, ORPHANED.(stepHeld := {1, 3}))
  {
    OrphanedSweeps(c);
    var swept := ORPHANED.(stepHeld := {1, 3}, phase := Sweeping(ORPHANED.snaps, ORPHANED_PLAN, {}));
    assert {1, 2, 3} - {2} == {1, 3} && {2} - {2} == {};
    Then(c, ORPHANED, ORPHANED_SWEEPING, Release(2, true), swept);
    Then(c, ORPHANED, swept, GiveUp, ORPHANED.(stepHeld := {1, 3}));
  }

  lemma SweptReachesLost(c: Config)
    ensures Reaches(c, ORPHANED.(stepHeld := {1, 3}), LOST)
  {
    var s1 := ORPHANED.(stepHeld := {1, 3});
    var s2 := s1.(snaps := [SNAP_A, SNAP_C]);
    Start(c, s1);
    assert RemoveAt(s1.snaps, 1) == [SNAP_A, SNAP_C];
    Then(c, s1, s1, SenderDestroys(1), s2);
    assert s2.recv.snaps + [] + [2] == [1, 2] && s2.recv.tagged + {2} == {2};
    Then(c, s1, s2, Land(true), LOST);
  }

  lemma ReachesTransitive(c: Config, s: State, s': State, s'': State)
    requires Reaches(c, s, s') && Reaches(c, s', s'')
    ensures Reaches(c, s, s'')
  {
    var first :| Run(c, s, first) == Some(s');
    var second :| Run(c, s', second) == Some(s'');
    RunAppend(c, s, first, second);
  }

  /** Without the first condition the witness is lost: the receiver ends on a
      snapshot the sender has neither kept nor bookmarked. */
  lemma OrphanedReceiveLosesTheWitness(c: Config)
    requires c.mode == Latest
    ensures Init(BEHIND) && Reaches(c, BEHIND, LOST) && !Witness(c, LOST)
  {
    BehindReachesOrphaned(c);
    OrphanedReachesSwept(c);
    SweptReachesLost(c);
    ReachesTransitive(c, BEHIND, ORPHANED, ORPHANED.(stepHeld := {1, 3}));
    ReachesTransitive(c, BEHIND, ORPHANED.(stepHeld := {1, 3}), LOST);
  }

  /** `all` mode with `b` and `c` to send: `-I` breaks after `b` has landed. */
  const THREE := State(map[1 := 1, 2 := 2, 3 := 3], {1, 2, 3}, {1, 2, 3}, [SNAP_A, SNAP_B, SNAP_C], [], {},
                       Receiver([1], true, {}, None, NoChannel, {}), Idle, false)

  const HALF_LANDED := THREE.(snaps := [SNAP_A, SNAP_C], stepHeld := {1, 3}, received := true,
                              recv := Receiver([1, 2], true, {}, None, NoChannel, {}))

  const THREE_PLAN := IncrementalAll(SnapRef(SNAP_A), SnapRef(SNAP_C), false)

  const THREE_SWEPT := THREE.(stepHeld := {1, 3}, phase := Sweeping(THREE.snaps, THREE_PLAN, {}))

  const THREE_STREAMING := THREE_SWEPT.(recv := THREE.recv.(channel := Ingesting(Stream(Some(1), [2], 3))),
                                        phase := Streaming(THREE.snaps, 3, false))

  lemma ThreeIsSwept(c: Config)
    requires c.mode == All
    ensures Reaches(c, THREE, THREE_SWEPT)
  {
    assert Guids(THREE.snaps) * {1, 3} - {1, 3} == {};
    Start(c, THREE);
    StepFromA(c, THREE, THREE, THREE_PLAN, {1, 3}, {});
  }

  lemma ThreeOpens(c: Config)
    requires Reaches(c, THREE, THREE_SWEPT)
    ensures Reaches(c, THREE, THREE_STREAMING)
  {
    BetweenAandC();
    Then(c, THREE, THREE_SWEPT, OpenRecv, THREE_STREAMING);
  }

  /** Nor can the condition on broken streams be dropped: an intermediate snapshot that
      landed from a broken `-I` stream is held on neither side. */
  lemma PartialLandingLosesTheWitness(c: Config)
    requires c.mode == All
    ensures Init(THREE) && Reaches(c, THREE, HALF_LANDED) && !Witness(c, HALF_LANDED)
  {
    ThreeIsSwept(c);
    ThreeOpens(c);
    AfterBreak(c, THREE_STREAMING);
  }

  lemma AfterBreak(c: Config, s: State)
    requires s.snaps == THREE.snaps && s.stepHeld == {1, 3} && Reaches(c, THREE, s)
    requires s == THREE.(stepHeld := {1, 3}, phase := s.phase,
                         recv := THREE.recv.(channel := Ingesting(Stream(Some(1), [2], 3))))
    ensures Reaches(c, THREE, HALF_LANDED)
  {
    var s3 := s.(recv := Receiver([1, 2], true, {}, None, NoChannel, {}), received := true);
    assert [1] + [2][..1] == [1, 2];
    Then(c, THREE, s, Interrupt(None, 1), s3);
    Then(c, THREE, s3, GiveUp, s3.(phase := Idle));
    assert RemoveAt(THREE.snaps, 1) == [SNAP_A, SNAP_C];
    Then(c, THREE, s3.(phase := Idle), SenderDestroys(1), HALF_LANDED);
  }

  lemma BetweenAandC()
    ensures GuidsBetween([SNAP_A, SNAP_B, SNAP_C], 1, 3) == [2]
  {
    assert [SNAP_A, SNAP_B, SNAP_C][..2] == [SNAP_A, SNAP_B];
    assert [SNAP_A, SNAP_B][..1] == [SNAP_A];
    assert [SNAP_A][..0] == [];
    assert GuidsBetween([SNAP_A], 1, 3) == [];
    assert GuidsBetween([SNAP_A, SNAP_B], 1, 3) == [2];
  }

  // ------------------------------------------------------- a late hand-over

  /** `b` has landed, but the link dropped before the answer: the receive process
      still hands its tag over while `c` is taken and the retry begins. */
  const RETRYING := State(map[1 := 1, 2 := 2, 3 := 3], {1, 2, 3}, {1, 2, 3}, [SNAP_A, SNAP_B, SNAP_C], [], {1, 2},
                          Receiver([1, 2], true, {2}, None, HandingOver(2, true), {}), Idle, true)

  const RETRY_PLAN := Incremental(SnapRef(SNAP_B), SnapRef(SNAP_C), false)

  const RETRY_PLACING :=
    RETRYING.(phase := Placing(RETRYING.snaps, RETRY_PLAN, HoldTargets(RETRYING.snaps, RETRY_PLAN)))

  const RETRY_SWEPT := RETRYING.(stepHeld := {2, 3}, phase := Sweeping(RETRYING.snaps, RETRY_PLAN, {}))

  /** The stream of `c` is admitted beside the hand-over of `b`. */
  const RETRY_STREAMING :=
    RETRY_SWEPT.(recv := Receiver([1, 2], true, {2}, None, Ingesting(Stream(Some(2), [], 3)), {2}),
                 phase := Streaming(RETRYING.snaps, 3, false))

  /** The late hand-over has taken the tag off `c`. */
  const HEAD_UNTAGGED :=
    RETRY_STREAMING.(recv := Receiver([1, 2, 3], true, {2}, None, HandingOver(3, true), {2}))

  /** And `c` was pruned. */
  const HEAD_PRUNED :=
    RETRY_STREAMING.(recv := Receiver([1, 2], true, {2}, None, HandingOver(3, true), {2}))

  const RETRY_SENT :=
    HEAD_PRUNED.(recv := HEAD_PRUNED.recv.(channel := NoChannel), phase := Sent(RETRYING.snaps, 3))

  /** The step has committed `c`, and the sender has pruned `b`. */
  function OvertakenHead(c: Config): State {
    RETRY_SENT.(snaps := [SNAP_A, SNAP_C], bookmarks := [CursorOf(c, RETRY_SENT, 3)], stepHeld := {}, phase := Idle)
  }

  lemma BehindReachesRetrying(c: Config)
    requires c.mode == Latest
    ensures Reaches(c, BEHIND, RETRYING)
  {
    BehindStreams(c);
    var landed := BEHIND_STREAMING.(recv := Receiver([1, 2], true, {2}, None, HandingOver(2, true), {}), received := true);
    assert [1] + [] + [2] == [1, 2] && {} + {2} == {2};
    Then(c, BEHIND, BEHIND_STREAMING, Land(true), landed);
    var idle := landed.(phase := Idle);
    Then(c, BEHIND, landed, GiveUp, idle);
    assert {1, 2} + {3} == {1, 2, 3} && [SNAP_A, SNAP_B] + [SNAP_C] == RETRYING.snaps;
    assert idle.born[3 := 3] == RETRYING.born;
    Then(c, BEHIND, idle, TakeSnapshot(SNAP_C, true), RETRYING);
  }

  lemma PlanFromB(present: bool)
    ensures PlanOneFilesystem(Inputs([SNAP_A, SNAP_B, SNAP_C], [1, 2], present, None, None, [], None, Latest))
            == Ok(RETRY_PLAN)
  {
    assert [SNAP_A, SNAP_B, SNAP_C][..2] == [SNAP_A, SNAP_B];
    assert LastCommon([SNAP_A, SNAP_B], [1, 2]) == Some(1);
    assert LastCommon([SNAP_A, SNAP_B, SNAP_C], [1, 2]) == Some(1);
  }

  lemma RetryIsPlaced(c: Config)
    requires c.mode == Latest
    ensures Reaches(c, RETRYING, RETRY_PLACING)
  {
    var s := RETRYING;
    Start(c, s);
    SelectAll(s.snaps, s.matching);
    PlanFromB(true);
    var listed, replied := s.(phase := Listed(s.snaps)), s.(phase := Replied(s.snaps, TokenlessInputs(c, s, s.snaps)));
    SenderListed(c, s);
    ReceiverListed(c, listed, s.snaps);
    DecideOnTokenless(c, replied, s.snaps, RETRY_PLAN);
    PrepareRound(c, s, RETRY_PLAN);
    PlanningRound(c, s, s, listed, replied, s.(phase := Planned(s.snaps, RETRY_PLAN)), RETRY_PLACING);
  }

  const RETRY_SWEEPING := RETRYING.(stepHeld := {1, 2, 3}, phase := Sweeping(RETRYING.snaps, RETRY_PLAN, {1}))

  lemma RetrySweeps(c: Config)
    requires Reaches(c, RETRYING, RETRY_PLACING)
    ensures Reaches(c, RETRYING, RETRY_SWEEPING)
  {
    var s := RETRYING;
    assert SNAP_A in s.snaps && SNAP_B in s.snaps && SNAP_C in s.snaps;
    assert {1, 2} + {2, 3} == {1, 2, 3} && Guids(s.snaps) * {1, 2, 3} - {2, 3} == {1};
    HoldingRound(c, s, RETRY_PLACING, RETRY_PLAN, {1, 2, 3}, {1});
  }

  lemma RetryIsSwept(c: Config)
    requires Reaches(c, RETRYING, RETRY_SWEEPING)
    ensures Reaches(c, RETRYING, RETRY_SWEPT)
  {
    assert {1, 2, 3} - {1} == {2, 3} && {1} - {1} == {};
    Then(c, RETRYING, RETRY_SWEEPING, Release(1, true), RETRY_SWEPT);
  }

  lemma RetryOpens(c: Config)
    requires Reaches(c, RETRYING, RETRY_SWEPT)
    ensures Reaches(c, RETRYING, RETRY_STREAMING)
  {
    assert {} + {2} == {2};
    Then(c, RETRYING, RETRY_SWEPT, OpenRecv, RETRY_STREAMING);
  }

  lemma HeadIsUntagged(c: Config)
    requires Reaches(c, RETRYING, RETRY_STREAMING)
    ensures Reaches(c, RETRYING, HEAD_UNTAGGED)
  {
    var landed := RETRY_STREAMING.(recv := Receiver([1, 2, 3], true, {2, 3}, None, HandingOver(3, true), {2}));
    assert [1, 2] + [] + [3] == [1, 2, 3] && {2} + {3} == {2, 3};
    Then(c, RETRYING, RETRY_STREAMING, Land(true), landed);
    assert {2, 3} - {3} == {2};
    Then(c, RETRYING, landed, LateReleaseTag(2, 3), HEAD_UNTAGGED);
  }

  lemma HeadIsPruned(c: Config)
    requires Reaches(c, RETRYING, HEAD_UNTAGGED)
    ensures Reaches(c, RETRYING, HEAD_PRUNED)
  {
    assert RemoveAt([1, 2, 3], 2) == [1, 2];
    Then(c, RETRYING, HEAD_UNTAGGED, ReceiverDestroys(2), HEAD_PRUNED);
  }

  lemma RetryEnds(c: Config)
    requires Reaches(c, RETRYING, HEAD_PRUNED)
    ensures Reaches(c, RETRYING, OvertakenHead(c))
  {
    AnswerRound(c, RETRYING, HEAD_PRUNED, RETRYING.snaps, 3);
    assert SNAP_B in RETRYING.snaps && SNAP_C in RETRY_SENT.snaps;
    CommitRound(c, RETRYING, RETRY_SENT, RETRYING.snaps, 2, 3);
    assert RemoveAt(RETRYING.snaps, 1) == [SNAP_A, SNAP_C];
    Then(c, RETRYING, Committed(c, RETRY_SENT, 3), SenderDestroys(1), OvertakenHead(c));
  }

  /** The condition on admission is needed too: a hand-over still under way takes
      the tag off the next snapshot to land. Once that is pruned the receiver is
      back on `b`, which a sender that committed `c` has given up. */
  lemma LateHandOverLosesTheWitness(c: Config)
    requires c.mode == Latest
    ensures Init(BEHIND) && Reaches(c, BEHIND, OvertakenHead(c)) && !Witness(c, OvertakenHead(c))
    ensures !Named(c, OvertakenHead(c), Head(OvertakenHead(c).recv.snaps))
  {
    OvertakenHeadIsReached(c);
  }

  lemma OvertakenHeadIsReached(c: Config)
    requires c.mode == Latest
    ensures Reaches(c, BEHIND, OvertakenHead(c))
  {
    BehindReachesRetrying(c);
    RetryIsPlaced(c);
    RetrySweeps(c);
    RetryIsSwept(c);
    RetryOpens(c);
    HeadIsUntagged(c);
    HeadIsPruned(c);
    RetryEnds(c);
    ReachesTransitive(c, BEHIND, RETRYING, OvertakenHead(c));
  }

  // --------------------------------------------------------- a tag not placed

  /** `b` has landed, its hold call has failed, and the receiver has pruned it. */
  const UNHELD_PRUNED :=
    BEHIND_STREAMING.(recv := Receiver([1], true, {}, None, HandingOver(2, false), {}), received := true)

  const UNHELD_SENT := UNHELD_PRUNED.(recv := BEHIND.recv, phase := Sent(BEHIND.snaps, 2))

  /** The step has committed `b`, and the sender has pruned `a`. */
  function NothingShared(c: Config): State {
    Committed(c, UNHELD_SENT, 2).(snaps := [SNAP_B])
  }

  lemma UnheldIsPruned(c: Config)
    requires c.mode == Latest
    ensures Reaches(c, BEHIND, UNHELD_PRUNED)
  {
    BehindStreams(c);
    var landed := UNHELD_PRUNED.(recv := Receiver([1, 2], true, {}, None, HandingOver(2, false), {}));
    assert [1] + [] + [2] == [1, 2];
    Then(c, BEHIND, BEHIND_STREAMING, Land(false), landed);
    assert RemoveAt([1, 2], 1) == [1];
    Then(c, BEHIND, landed, ReceiverDestroys(1), UNHELD_PRUNED);
  }

  lemma UnheldIsCommitted(c: Config)
    requires Reaches(c, BEHIND, UNHELD_PRUNED)
    ensures Reaches(c, BEHIND, Committed(c, UNHELD_SENT, 2))
  {
    AnswerRound(c, BEHIND, UNHELD_PRUNED, BEHIND.snaps, 2);
    assert SNAP_A in BEHIND.snaps && SNAP_B in BEHIND.snaps;
    CommitRound(c, BEHIND, UNHELD_SENT, BEHIND.snaps, 1, 2);
  }

  lemma NothingSharedIsReached(c: Config)
    requires Reaches(c, BEHIND, Committed(c, UNHELD_SENT, 2))
    ensures Reaches(c, BEHIND, NothingShared(c))
  {
    assert RemoveAt(BEHIND.snaps, 0) == [SNAP_B];
    Then(c, BEHIND, Committed(c, UNHELD_SENT, 2), SenderDestroys(0), NothingShared(c));
  }

  /** Nor the condition on the tag: a landed stream that goes untagged is answered
      like any other. Once it is pruned on the receiver, and its base on the
      sender, no snapshot or bookmark is left that both sides know. */
  lemma UnheldLandingLosesTheWitness(c: Config)
    requires c.mode == Latest
    ensures Init(BEHIND) && Reaches(c, BEHIND, NothingShared(c)) && !Witness(c, NothingShared(c))
    ensures var s := NothingShared(c);
            && (forall x | x in s.snaps :: x.guid !in s.recv.snaps)
            && (forall b | b in s.bookmarks :: b.guid !in s.recv.snaps)
  {
    UnheldIsPruned(c);
    UnheldIsCommitted(c);
    NothingSharedIsReached(c);
  }
}
