/**
 The catch-up loop `replicate_one`: plan, stream, commit, and plan again until
 the receiver holds the sender's head, at most sixteen times.
 */
module CatchUp {
  import opened Wrappers
  import opened Plan
  import Names
  import P = Protocol

  const MAX_STEPS_PER_CYCLE := 16

  /** One dataset pair while its sender takes no snapshot: `snaps` is everything
      the sender has, `sender` what the job's filter accepts of it. */
  datatype World = World(
    born: map<nat, nat>, snaps: seq<SnapshotEntry>, sender: seq<SnapshotEntry>,
    receiver: seq<nat>, present: bool, partial: Option<P.Partial>, bookmarks: seq<BookmarkRef>)

  /** What one step meets: which queries fail, whether the stream and the
      cursor work, and whether the cycle is cancelled after it. */
  datatype Weather = Weather(
    tokenSeen: bool, decodes: bool, tokenBookmarksRead: bool, fallbackRead: bool,
    streamOk: bool, cursorOk: bool, sweepOk: bool, cancelled: bool)

  datatype StepOutcome = Done | Advanced | Failed(targetAbsent: bool)

  datatype Verdict = CaughtUp | StepFailed(targetAbsent: bool) | Stopped | StepLimit

  datatype Report = Report(world: World, streams: nat, verdict: Verdict)

  function InputsOf(c: P.Config, w: World, x: Weather): Inputs {
    var p := if x.tokenSeen then w.partial else None;
    Inputs(w.sender, w.receiver, w.present,
           if p.Some? then Some(p.value.token) else None,
           if p.Some? && x.decodes then Some(ResumeToken("", p.value.to, p.value.base)) else None,
           if x.tokenBookmarksRead then w.bookmarks else [],
           if x.fallbackRead then Some(w.bookmarks) else None,
           c.mode)
  }

  /** The stream can be received; a discard has cleared the partial state. */
  predicate Receivable(w: World, plan: SnapshotPlan)
    requires !plan.Nothing?
  {
    if plan.Resume? then w.partial == Some(P.Partial(plan.token, plan.decoded.fromGuid, plan.decoded.toGuid))
    else
      && (plan.discard || w.partial.None?)
      && plan.to.guid in Guids(w.sender)
      && if plan.Full? then !w.present && w.receiver == []
         else
           && w.receiver != [] && plan.from.guid == Head(w.receiver)
           && plan.from.guid in w.born && plan.to.guid in w.born
           && w.born[plan.from.guid] < w.born[plan.to.guid]
  }

  function OthersThan(c: P.Config, bookmarks: seq<BookmarkRef>): (r: seq<BookmarkRef>)
    ensures forall b | b in r :: b in bookmarks
  {
    if bookmarks == [] then []
    else if P.Own(c, bookmarks[0]) then OthersThan(c, bookmarks[1..])
    else [bookmarks[0]] + OthersThan(c, bookmarks[1..])
  }

  /** The pair after `plan` has landed and `commit` has run. */
  function Landed(c: P.Config, w: World, plan: SnapshotPlan, x: Weather): World
    requires !plan.Nothing?
  {
    var to := P.ToGuid(plan);
    var kept := if x.cursorOk && x.sweepOk then OthersThan(c, w.bookmarks) else w.bookmarks;
    var bookmarks :=
      if x.cursorOk && to in w.born then kept + [BookmarkRef(Names.CursorLeaf(to, c.job, c.peer), to, w.born[to])]
      else kept;
    w.(receiver := w.receiver + P.Between(w.born, w.snaps, plan) + [to],
       present := true, partial := None, bookmarks := bookmarks)
  }

  /** `replicate_step` and its effect on the pair. */
  function StepOf(c: P.Config, w: World, x: Weather): (StepOutcome, World) {
    match PlanOneFilesystem(InputsOf(c, w, x))
    case Err(_) => (Failed(false), w)
    case Ok(plan) =>
      if plan.Nothing? then (Done, w)
      else if x.streamOk && Receivable(w, plan) then (Advanced, Landed(c, w, plan, x))
      else (Failed(plan.Full?), w)
  }

  function OneMore(rest: Report): Report {
    rest.(streams := rest.streams + 1)
  }

  type Stepper = (World, Weather) -> (StepOutcome, World)

  function StepperOf(c: P.Config): Stepper {
    (w, x) => StepOf(c, w, x)
  }

  /** The loop as a function of the steps still allowed, over any step. */
  function RoundsBy(step: Stepper, w: World, weather: seq<Weather>, left: nat): Report
    requires left <= |weather|
    decreases left
  {
    var at := |weather| - left;
    if left == 0 then Report(w, 0, StepLimit)
    else
      var (outcome, w') := step(w, weather[at]);
      match outcome
      case Done => Report(w, 0, CaughtUp)
      case Failed(absent) => Report(w, 0, StepFailed(absent))
      case Advanced =>
        if weather[at].cancelled then Report(w', 1, Stopped)
        else OneMore(RoundsBy(step, w', weather, left - 1))
  }

  function Rounds(c: P.Config, w: World, weather: seq<Weather>, left: nat): Report
    requires left <= |weather|
  {
    RoundsBy(StepperOf(c), w, weather, left)
  }

  /** A dry run of the step: it plans, and neither discards nor opens anything. */
  function DryStepOf(c: P.Config, w: World, x: Weather): (StepOutcome, World) {
    match PlanOneFilesystem(InputsOf(c, w, x))
    case Err(_) => (Failed(false), w)
    case Ok(plan) => (if plan.Nothing? then Done else Advanced, w)
  }

  function DryStepperOf(c: P.Config): Stepper {
    (w, x) => DryStepOf(c, w, x)
  }

  /** A dry run stops after its first step, having sent nothing. */
  function FirstOnly(step: Stepper, w: World, x: Weather): Report {
    match step(w, x).0
    case Done => Report(w, 0, CaughtUp)
    case Failed(absent) => Report(w, 0, StepFailed(absent))
    case Advanced => Report(w, 0, Stopped)
  }

  /** The loop of `replicate_one`. The verdict `StepLimit` is its own warning. */
  method ReplicateBy(step: Stepper, dryRun: bool, start: World, weather: seq<Weather>) returns (report: Report)
    requires |weather| == MAX_STEPS_PER_CYCLE
    ensures report ==
            if dryRun then FirstOnly(step, start, weather[0]) else RoundsBy(step, start, weather, MAX_STEPS_PER_CYCLE)
    ensures report.streams <= MAX_STEPS_PER_CYCLE
    ensures report.verdict == StepLimit ==> report.streams == MAX_STEPS_PER_CYCLE
  {
    var w, streams, n := start, 0, 1;
    while true
      invariant 1 <= n <= MAX_STEPS_PER_CYCLE && streams == n - 1
      invariant dryRun ==> n == 1 && w == start
      invariant
        var rest := RoundsBy(step, w, weather, MAX_STEPS_PER_CYCLE - streams);
        RoundsBy(step, start, weather, MAX_STEPS_PER_CYCLE) == rest.(streams := rest.streams + streams)
      decreases MAX_STEPS_PER_CYCLE - n
    {
      var x := weather[n - 1];
      var (outcome, next) := step(w, x);
      match outcome {
        case Done => return Report(w, streams, CaughtUp);
        case Failed(absent) => return Report(w, streams, StepFailed(absent));
        case Advanced =>
      }
      if dryRun {
        return Report(w, streams, Stopped);
      }
      w, streams := next, streams + 1;
      if x.cancelled {
        return Report(w, streams, Stopped);
      }
      if n >= MAX_STEPS_PER_CYCLE {
        return Report(w, streams, StepLimit);
      }
      n := n + 1;
    }
  }

  /** `replicate_one`. */
  method ReplicateOne(c: P.Config, dryRun: bool, start: World, weather: seq<Weather>) returns (report: Report)
    requires |weather| == MAX_STEPS_PER_CYCLE
    ensures !dryRun ==> report == Rounds(c, start, weather, MAX_STEPS_PER_CYCLE)
    ensures dryRun ==> report == FirstOnly(DryStepperOf(c), start, weather[0])
    ensures report.streams <= MAX_STEPS_PER_CYCLE
    ensures report.verdict == StepLimit ==> report.streams == MAX_STEPS_PER_CYCLE
  {
    report := ReplicateBy(if dryRun then DryStepperOf(c) else StepperOf(c), dryRun, start, weather);
  }

  // ------------------------------------------------------------ what a loop does

  /** `worlds` are the states that the first rounds go through, each of them a
      stream that is not followed by a cancellation. */
  ghost predicate Streams(step: Stepper, weather: seq<Weather>, worlds: seq<World>) {
    && 0 < |worlds| <= |weather| + 1
    && (forall k | 0 < k < |worlds| :: step(worlds[k - 1], weather[k - 1]) == (Advanced, worlds[k]))
    && (forall k | 0 <= k < |worlds| - 2 :: !weather[k].cancelled)
  }

  /** Why the loop stops after the rounds in `worlds`. */
  ghost predicate StopsFor(step: Stepper, weather: seq<Weather>, worlds: seq<World>, verdict: Verdict) {
    var n := |worlds| - 1;
    && Streams(step, weather, worlds)
    && (verdict.Stopped? <==> n > 0 && weather[n - 1].cancelled)
    && match verdict
       case Stopped => true
       case StepLimit => n == |weather|
       case CaughtUp => n < |weather| && step(worlds[n], weather[n]).0 == Done
       case StepFailed(absent) => n < |weather| && step(worlds[n], weather[n]).0 == Failed(absent)
  }

  /** Main result: the loop streams until a round finds nothing to do, fails, is
      followed by a cancellation, or is the last allowed; the report counts the
      streams before that and carries the state they left. */
  lemma RoundsIff(step: Stepper, start: World, weather: seq<Weather>, report: Report)
    ensures report == RoundsBy(step, start, weather, |weather|) <==>
            exists worlds :: worlds != [] && worlds[0] == start && StopsFor(step, weather, worlds, report.verdict)
                             && report == Report(worlds[|worlds| - 1], |worlds| - 1, report.verdict)
  {
    var r := RoundsBy(step, start, weather, |weather|);
    var worlds := RoundsStop(step, weather, [start]);
    assert StopsFor(step, weather, worlds, r.verdict) && worlds[0] == start;
    if worlds' :| worlds' != [] && worlds'[0] == start && StopsFor(step, weather, worlds', report.verdict)
                  && report == Report(worlds'[|worlds'| - 1], |worlds'| - 1, report.verdict)
    {
      assert worlds'[..1] == [start];
      StoppedRounds(step, weather, worlds', report.verdict, 1);
    }
  }

  /** Any way of stopping is what the loop reports. */
  lemma {:induction false} StoppedRounds(step: Stepper, weather: seq<Weather>, worlds: seq<World>, verdict: Verdict,
                                         n: nat)
    requires StopsFor(step, weather, worlds, verdict) && 0 < n <= |worlds|
    requires n == 1 || !weather[n - 2].cancelled
    ensures RoundsBy(step, worlds[n - 1], weather, |weather| - (n - 1))
            == Report(worlds[|worlds| - 1], |worlds| - n, verdict)
    decreases |worlds| - n
  {
    if n < |worlds| {
      assert step(worlds[n - 1], weather[n - 1]) == (Advanced, worlds[n]);
      if n < |worlds| - 1 || !weather[n - 1].cancelled {
        StoppedRounds(step, weather, worlds, verdict, n + 1);
      }
    }
  }

  /** And the loop stops in one of them. */
  lemma {:induction false} RoundsStop(step: Stepper, weather: seq<Weather>, so: seq<World>) returns (worlds: seq<World>)
    requires Streams(step, weather, so) && (|so| == 1 || !weather[|so| - 2].cancelled)
    ensures so <= worlds
    ensures var r := RoundsBy(step, so[|so| - 1], weather, |weather| - (|so| - 1));
            && StopsFor(step, weather, worlds, r.verdict)
            && r == Report(worlds[|worlds| - 1], |worlds| - |so|, r.verdict)
    decreases |weather| + 1 - |so|
  {
    worlds := so;
    var n := |so| - 1;
    if n < |weather| && step(so[n], weather[n]).0.Advanced? {
      var next := so + [step(so[n], weather[n]).1];
      assert next[n + 1] == step(so[n], weather[n]).1;
      if weather[n].cancelled {
        worlds := next;
      } else {
        worlds := RoundsStop(step, weather, next);
      }
    }
  }

  /** So no stream follows a cancelled round, whatever would have come next. */
  lemma CancelledRoundIsTheLast(step: Stepper, weather: seq<Weather>, worlds: seq<World>)
    requires Streams(step, weather, worlds) && |worlds| > 1 && weather[|worlds| - 2].cancelled
    ensures RoundsBy(step, worlds[0], weather, |weather|) == Report(worlds[|worlds| - 1], |worlds| - 1, Stopped)
  {
    assert StopsFor(step, weather, worlds, Stopped);
    RoundsIff(step, worlds[0], weather, Report(worlds[|worlds| - 1], |worlds| - 1, Stopped));
  }

  /** And a failing round is reported with the streams before it. */
  lemma FailingRoundIsTheLast(step: Stepper, weather: seq<Weather>, worlds: seq<World>, absent: bool)
    requires Streams(step, weather, worlds) && |worlds| <= |weather|
    requires |worlds| > 1 ==> !weather[|worlds| - 2].cancelled
    requires step(worlds[|worlds| - 1], weather[|worlds| - 1]).0 == Failed(absent)
    ensures RoundsBy(step, worlds[0], weather, |weather|)
            == Report(worlds[|worlds| - 1], |worlds| - 1, StepFailed(absent))
  {
    assert StopsFor(step, weather, worlds, StepFailed(absent));
    RoundsIff(step, worlds[0], weather, Report(worlds[|worlds| - 1], |worlds| - 1, StepFailed(absent)));
  }

  /** A step sends nothing unless its stream works, and then leaves both sides as
      they were. Its failure says that the target is absent exactly when it is:
      when what failed was a full send. */
  lemma FailureSaysAbsentIff(c: P.Config, w: World, x: Weather)
    requires Consistent(w)
    ensures !x.streamOk ==> !StepOf(c, w, x).0.Advanced?
    ensures !StepOf(c, w, x).0.Advanced? ==> StepOf(c, w, x).1 == w
    ensures StepOf(c, w, x).0.Failed? ==>
              && (StepOf(c, w, x).0.targetAbsent <==> !w.present)
              && (StepOf(c, w, x).0.targetAbsent <==>
                  exists to, discard :: PlanOneFilesystem(InputsOf(c, w, x)) == Ok(Full(to, discard)))
  {
    FullIffTargetAbsent(InputsOf(c, w, x));
  }

  /** A dry run moves nothing. It finds nothing to do exactly when a step would,
      and fails exactly when planning does. */
  lemma DryRunSaysWhatIsPlanned(c: P.Config, w: World, x: Weather)
    ensures var r := FirstOnly(DryStepperOf(c), w, x);
            && r.world == w && r.streams == 0
            && (r.verdict == CaughtUp <==> StepOf(c, w, x).0.Done?)
            && (r.verdict == StepFailed(false) <==> PlanOneFilesystem(InputsOf(c, w, x)).Err?)
            && (r.verdict == CaughtUp || r.verdict == StepFailed(false) || r.verdict == Stopped)
  {
  }

  /** In `latest` mode a stream that is not a resume adds one snapshot to the
      receiver, the newest listed one. */
  lemma LatestAddsOne(c: P.Config, w: World, x: Weather)
    requires c.mode == Latest && StepOf(c, w, x).0.Advanced? && !Resumes(InputsOf(c, w, x))
    ensures w.sender != [] && StepOf(c, w, x).1.receiver == w.receiver + [NewestListed(w).guid]
  {
    var inp := InputsOf(c, w, x);
    var plan := PlanOneFilesystem(inp).value;
    ResumeOrDiscardIsExact(inp, plan);
    LatestEndsAtNewest(inp, plan);
    assert P.Between(w.born, w.snaps, plan) == [];
  }

  /** A landed stream is committed: with working calls its end has the pair's
      only cursor. */
  lemma LandedIsCommitted(c: P.Config, w: World, plan: SnapshotPlan, x: Weather)
    requires !plan.Nothing? && x.cursorOk && P.ToGuid(plan) in w.born
    ensures P.HasCursor(c, Landed(c, w, plan, x).bookmarks, P.ToGuid(plan))
    ensures x.sweepOk ==> forall b | b in Landed(c, w, plan, x).bookmarks && P.Own(c, b) :: b.guid == P.ToGuid(plan)
    ensures forall b | b in w.bookmarks && !P.Own(c, b) :: b in Landed(c, w, plan, x).bookmarks
  {
    var to := P.ToGuid(plan);
    var cursor := BookmarkRef(Names.CursorLeaf(to, c.job, c.peer), to, w.born[to]);
    Names.LeafEndsInTail(to, c.job, c.peer);
    assert cursor in Landed(c, w, plan, x).bookmarks && P.Own(c, cursor);
    OthersAreKept(c, w.bookmarks);
  }

  lemma {:induction false} OthersAreKept(c: P.Config, bookmarks: seq<BookmarkRef>)
    ensures forall b :: b in OthersThan(c, bookmarks) <==> b in bookmarks && !P.Own(c, b)
  {
    if bookmarks != [] {
      OthersAreKept(c, bookmarks[1..]);
      assert bookmarks == [bookmarks[0]] + bookmarks[1..];
    }
  }

  // ------------------------------------------------------------- convergence

  ghost predicate Consistent(w: World) {
    && History(w.born)
    && Sorted(w.sender) && KnownSnapshots(w.born, w.sender) && w.sender != []
    && Sorted(w.snaps) && KnownSnapshots(w.born, w.snaps)
    && (forall s | s in w.sender :: s in w.snaps)
    && KnownBookmarks(w.born, w.bookmarks)
    && Ordered(w.born, w.receiver)
    && (w.receiver != [] ==> w.present)
    && (w.partial.Some? ==> w.present)
  }

  /** Every query answers and every stream and commit works; only whether a
      token decodes, and the cursor itself, are left open. */
  predicate Fair(x: Weather) {
    x.tokenSeen && x.tokenBookmarksRead && x.fallbackRead && x.streamOk && !x.cancelled
  }

  predicate AllFair(weather: seq<Weather>) {
    forall x | x in weather :: Fair(x)
  }

  /** The receiver ends on a listed snapshot, with no partial state. */
  ghost predicate ListedHead(w: World) {
    Consistent(w) && w.receiver != [] && w.partial.None? && Head(w.receiver) in Guids(w.sender)
  }

  predicate CanName(w: World, g: nat) {
    g in Guids(w.sender) || g in BookmarkGuids(w.bookmarks)
  }

  /** The sender's newest filtered snapshot. */
  function NewestListed(w: World): SnapshotEntry
    requires w.sender != []
  {
    w.sender[|w.sender| - 1]
  }

  /** The newest filtered snapshot is younger than every shared bookmark. */
  predicate HeadIsYoungest(w: World)
    requires w.sender != []
  {
    forall b | b in w.bookmarks && b.guid in w.receiver :: b.createtxg < NewestListed(w).createtxg
  }

  /** No shared bookmark is younger than the newest filtered snapshot. */
  predicate NothingOvertakes(w: World)
    requires w.sender != []
  {
    forall b | b in w.bookmarks && b.guid in w.receiver :: b.createtxg <= NewestListed(w).createtxg
  }

  /** What the first round finds: anything to plan forward from, except in
      `latest` mode a shared bookmark that the newest filtered snapshot, not yet
      received, does not overtake. */
  predicate CanAdvance(c: P.Config, w: World, x: Weather)
    requires w.sender != []
  {
    || c.mode == All || w.receiver == [] || Resumes(InputsOf(c, w, x))
    || HeadIsYoungest(w) || NewestListed(w).guid in w.receiver
  }

  /** Where a sync can start: nothing there yet, the first sync interrupted but
      resumable, or a newest snapshot the sender can name, with any partial
      state sitting on it. */
  ghost predicate Startable(c: P.Config, w: World, x: Weather) {
    || (!w.present && w.receiver == [] && w.partial.None?)
    || (w.receiver == [] && w.partial.Some? && w.partial.value.base.None? && Resumes(InputsOf(c, w, x)))
    || (&& w.receiver != [] && CanName(w, Head(w.receiver))
        && (w.partial.Some? ==> w.partial.value.base == Some(Head(w.receiver))
                                && w.partial.value.to in w.born
                                && Head(w.receiver) in w.born
                                && w.born[Head(w.receiver)] < w.born[w.partial.value.to]))
  }

  /** Snapshots up to this txg are not this cycle's to deliver. */
  ghost function StartLine(c: P.Config, w: World, x: Weather): int {
    if Resumes(InputsOf(c, w, x)) && w.partial.Some? && w.partial.value.to in w.born then w.born[w.partial.value.to]
    else if w.receiver != [] && Head(w.receiver) in w.born then w.born[Head(w.receiver)]
    else -1
  }

  ghost predicate Covered(w: World, receiver: seq<nat>, line: int) {
    forall s | s in w.sender && line < s.createtxg :: s.guid in receiver
  }

  lemma LandedOrdered(c: P.Config, w: World, plan: SnapshotPlan, x: Weather)
    requires Consistent(w) && !plan.Nothing? && Receivable(w, plan) && P.ToGuid(plan) in Guids(w.sender)
    requires SitsOnHead(w, P.BaseGuid(plan), P.ToGuid(plan))
    ensures Ordered(w.born, Landed(c, w, plan, x).receiver)
  {
    var to, via, old_ := P.ToGuid(plan), P.Between(w.born, w.snaps, plan), w.receiver;
    var r := old_ + via + [to];
    if plan.IncrementalAll? {
      P.BetweenAscends(w.born, w.snaps, w.born[plan.from.guid], w.born[plan.to.guid]);
    }
    forall i, j | 0 <= i < j < |r| && r[i] in w.born && r[j] in w.born
      ensures w.born[r[i]] < w.born[r[j]]
    {
      if |old_| <= j {
        assert r[j] == (via + [to])[j - |old_|];
        if i < |old_| {
          assert r[i] == old_[i];
          HeadIsNewest(w.born, old_, r[i]);
        } else {
          assert r[i] == via[i - |old_|];
        }
      }
    }
  }

  ghost predicate SitsOnHead(w: World, base: Option<nat>, to: nat) {
    && to in w.born
    && match base
       case None => w.receiver == []
       case Some(h) => w.receiver != [] && h == Head(w.receiver) && h in w.born && w.born[h] < w.born[to]
  }

  /** A received stream leaves a consistent pair whose newest snapshot is a
      listed one, with no partial state. */
  lemma LandedIsConsistent(c: P.Config, w: World, plan: SnapshotPlan, x: Weather)
    requires Consistent(w) && !plan.Nothing? && Receivable(w, plan) && P.ToGuid(plan) in Guids(w.sender)
    requires SitsOnHead(w, P.BaseGuid(plan), P.ToGuid(plan))
    ensures
      var w' := Landed(c, w, plan, x);
      && Consistent(w') && w'.partial.None?
      && w'.receiver != [] && Head(w'.receiver) == P.ToGuid(plan)
      && w'.sender == w.sender && w'.born == w.born
      && (forall g | g in w.receiver :: g in w'.receiver)
  {
    LandedOrdered(c, w, plan, x);
  }

  /** Planning over a listed head: nothing, or one stream from it to the newest
      listed snapshot that is received and leaves no listed snapshot out. */
  lemma PlanFromListedHead(c: P.Config, w: World, x: Weather)
    requires Consistent(w) && Fair(x) && w.receiver != [] && w.partial.None? && Head(w.receiver) in Guids(w.sender)
    ensures PlanOneFilesystem(InputsOf(c, w, x)).Ok?
    ensures
      var plan := PlanOneFilesystem(InputsOf(c, w, x)).value;
      if plan.Nothing? then Head(w.receiver) == NewestListed(w).guid
      else
        && (plan.Incremental? || plan.IncrementalAll?)
        && plan.from.guid == Head(w.receiver) && plan.to == SnapRef(NewestListed(w))
        && !plan.discard
        && SitsOnHead(w, Some(plan.from.guid), plan.to.guid)
        && (plan.Incremental? && c.mode == All ==>
              forall s | s in w.sender && w.born[plan.from.guid] < s.createtxg :: s == NewestListed(w))
  {
    var inp := InputsOf(c, w, x);
    var picked := PickPlanWithDiscard(w.sender, w.receiver, false, c.mode);
    assert PickForReply(inp) == picked;
    FallbackKeepsListedHead(w.born, inp, picked);
    assert PlanOneFilesystem(inp) == Ok(picked);
    PickFromListedHead(c, w);
    var i := LastCommon(w.sender, w.receiver).value;
    SameGuidSameTxg(w.born, w.sender, i);
    SameGuidSameTxg(w.born, w.sender, |w.sender| - 1);
    if i + 2 == |w.sender| {
      OnlyTheLastFollows(w.sender, i);
    }
  }

  lemma PickFromListedHead(c: P.Config, w: World)
    requires Consistent(w) && w.receiver != [] && Head(w.receiver) in Guids(w.sender)
    ensures LastCommon(w.sender, w.receiver).Some?
    ensures
      var plan := PickPlanWithDiscard(w.sender, w.receiver, false, c.mode);
      var i := LastCommon(w.sender, w.receiver).value;
      if plan.Nothing? then Head(w.receiver) == NewestListed(w).guid
      else
        && (plan.Incremental? || plan.IncrementalAll?)
        && plan.from == SnapRef(w.sender[i]) && plan.to == SnapRef(NewestListed(w))
        && !plan.discard && i < |w.sender| - 1
        && (plan.Incremental? && c.mode == All ==> i + 2 == |w.sender|)
    ensures w.sender[LastCommon(w.sender, w.receiver).value].guid == Head(w.receiver)
  {
    ListedHeadIsLastCommon(w.born, w.sender, w.receiver);
  }

  lemma OnlyTheLastFollows(sender: seq<SnapshotEntry>, i: nat)
    requires Sorted(sender) && i + 2 == |sender|
    ensures forall s | s in sender && sender[i].createtxg < s.createtxg :: s == sender[|sender| - 1]
  {
  }

  lemma DeliversEverythingAfter(c: P.Config, w: World, plan: SnapshotPlan, x: Weather)
    requires Consistent(w) && c.mode == All && w.receiver != [] && (plan.Incremental? || plan.IncrementalAll?)
    requires plan.to == SnapRef(NewestListed(w)) && SitsOnHead(w, Some(plan.from.guid), plan.to.guid)
    requires plan.Incremental? ==>
               forall s | s in w.sender && w.born[plan.from.guid] < s.createtxg :: s == NewestListed(w)
    ensures Covered(w, Landed(c, w, plan, x).receiver, w.born[Head(w.receiver)])
  {
    SameGuidSameTxg(w.born, w.sender, |w.sender| - 1);
    forall s | s in w.sender && w.born[Head(w.receiver)] < s.createtxg
      ensures s.guid in Landed(c, w, plan, x).receiver
    {
      if s != NewestListed(w) {
        P.BetweenIsComplete(w.snaps, w.born[plan.from.guid], w.born[plan.to.guid], s);
      }
    }
  }

  lemma StepFromListedHead(c: P.Config, w: World, x: Weather)
    requires Consistent(w) && Fair(x) && w.receiver != [] && w.partial.None? && Head(w.receiver) in Guids(w.sender)
    ensures
      var (outcome, w') := StepOf(c, w, x);
      if Head(w.receiver) == NewestListed(w).guid then outcome == Done
      else
        && outcome == Advanced && Consistent(w') && w'.partial.None? && w'.sender == w.sender && w'.born == w.born
        && w'.receiver != [] && Head(w'.receiver) == NewestListed(w).guid
        && (forall g | g in w.receiver :: g in w'.receiver)
        && (c.mode == All ==> Covered(w, w'.receiver, w.born[Head(w.receiver)]))
  {
    PlanFromListedHead(c, w, x);
    SameGuidSameTxg(w.born, w.sender, |w.sender| - 1);
    var plan := PlanOneFilesystem(InputsOf(c, w, x)).value;
    if !plan.Nothing? {
      LandedIsConsistent(c, w, plan, x);
      if c.mode == All {
        DeliversEverythingAfter(c, w, plan, x);
      }
    }
  }

  ghost predicate Steps(step: Stepper, w: World, x: Weather, outcome: StepOutcome, w': World) {
    step(w, x) == (outcome, w')
  }

  ghost predicate Ends(step: Stepper, w: World, weather: seq<Weather>, left: nat, r: Report) {
    left <= |weather| && RoundsBy(step, w, weather, left) == r
  }

  lemma EndsDone(step: Stepper, w: World, weather: seq<Weather>, left: nat, x: Weather)
    requires 0 < left <= |weather| && weather[|weather| - left] == x && Steps(step, w, x, Done, w)
    ensures Ends(step, w, weather, left, Report(w, 0, CaughtUp))
  {
  }

  lemma EndsAdvance(step: Stepper, w: World, w': World, weather: seq<Weather>, left: nat, next: nat, x: Weather,
                    rest: Report)
    requires 0 < left <= |weather| && next == left - 1 && weather[|weather| - left] == x && !x.cancelled
    requires Steps(step, w, x, Advanced, w') && Ends(step, w', weather, next, rest)
    ensures Ends(step, w, weather, left, OneMore(rest))
  {
  }

  /** At the newest listed snapshot the loop ends without a stream. */
  lemma FinishAtNewest(c: P.Config, w: World, weather: seq<Weather>, left: nat)
    requires ListedHead(w) && Head(w.receiver) == NewestListed(w).guid
    requires 1 <= left <= |weather| && AllFair(weather)
    ensures Ends(StepperOf(c), w, weather, left, Report(w, 0, CaughtUp))
  {
    var x := weather[|weather| - left];
    StepAtNewest(c, w, x);
    EndsDone(StepperOf(c), w, weather, left, x);
  }

  lemma StepAtNewest(c: P.Config, w: World, x: Weather)
    requires ListedHead(w) && Fair(x) && Head(w.receiver) == NewestListed(w).guid
    ensures Steps(StepperOf(c), w, x, Done, w)
  {
    StepFromListedHead(c, w, x);
  }

  /** The rest of the loop, from a listed head. */
  ghost predicate Finished(c: P.Config, w: World, r: Report)
    requires ListedHead(w)
  {
    && r.verdict == CaughtUp && r.streams <= 1
    && r.world.receiver != [] && Head(r.world.receiver) == NewestListed(w).guid
    && (forall g | g in w.receiver :: g in r.world.receiver)
    && (c.mode == All && Head(w.receiver) in w.born ==> Covered(w, r.world.receiver, w.born[Head(w.receiver)]))
  }

  /** `w'` is `w` with the newest listed snapshot delivered, and in `all` mode
      everything before it. */
  ghost predicate Delivered(c: P.Config, w: World, w': World)
    requires ListedHead(w)
  {
    && ListedHead(w') && w'.sender == w.sender
    && Head(w'.receiver) == NewestListed(w).guid
    && (forall g | g in w.receiver :: g in w'.receiver)
    && (c.mode == All && Head(w.receiver) in w.born ==> Covered(w, w'.receiver, w.born[Head(w.receiver)]))
  }

  /** Below the newest listed snapshot, after one stream. */
  lemma FinishBelowNewest(c: P.Config, w: World, w': World, weather: seq<Weather>, left: nat, x: Weather)
    requires 2 <= left <= |weather| && AllFair(weather) && weather[|weather| - left] == x && !x.cancelled
    requires ListedHead(w) && Steps(StepperOf(c), w, x, Advanced, w') && Delivered(c, w, w')
    ensures Ends(StepperOf(c), w, weather, left, Report(w', 1, CaughtUp))
  {
    var next := left - 1;
    FinishAtNewest(c, w', weather, next);
    EndsAdvance(StepperOf(c), w, w', weather, left, next, x, Report(w', 0, CaughtUp));
  }

  lemma FinishedBelowNewest(c: P.Config, w: World, w': World)
    requires ListedHead(w) && Delivered(c, w, w')
    ensures Finished(c, w, Report(w', 1, CaughtUp))
  {
  }

  lemma FinishedAtNewest(c: P.Config, w: World)
    requires ListedHead(w) && Head(w.receiver) == NewestListed(w).guid
    ensures Finished(c, w, Report(w, 0, CaughtUp))
  {
    NothingAboveNewest(w);
  }

  /** From a listed head, one more stream at most and the next plan is empty. */
  lemma FinishFromListedHead(c: P.Config, w: World, weather: seq<Weather>, left: nat) returns (r: Report)
    requires ListedHead(w) && 2 <= left <= |weather| && AllFair(weather)
    ensures Ends(StepperOf(c), w, weather, left, r) && Finished(c, w, r)
  {
    var x := weather[|weather| - left];
    if Head(w.receiver) == NewestListed(w).guid {
      FinishAtNewest(c, w, weather, left);
      FinishedAtNewest(c, w);
      r := Report(w, 0, CaughtUp);
    } else {
      var w' := StepBelowNewest(c, w, x);
      FinishBelowNewest(c, w, w', weather, left, x);
      FinishedBelowNewest(c, w, w');
      r := Report(w', 1, CaughtUp);
    }
  }

  lemma NothingAboveNewest(w: World)
    requires Consistent(w)
    ensures NewestListed(w).guid in w.born && Covered(w, w.receiver, w.born[NewestListed(w).guid])
  {
    SameGuidSameTxg(w.born, w.sender, |w.sender| - 1);
  }

  lemma StepBelowNewest(c: P.Config, w: World, x: Weather) returns (w': World)
    requires ListedHead(w) && Fair(x) && Head(w.receiver) != NewestListed(w).guid
    ensures Steps(StepperOf(c), w, x, Advanced, w') && Delivered(c, w, w')
  {
    StepFromListedHead(c, w, x);
    w' := StepOf(c, w, x).1;
  }

  // ---------------------------------------------------------- the first stream

  /** The first stream has landed on a listed snapshot; what is younger than
      `line` and not yet there is younger than it. */
  ghost predicate Arrived(c: P.Config, w: World, line: int, w': World) {
    && ListedHead(w') && w'.sender == w.sender && w'.born == w.born && Head(w'.receiver) in w.born
    && (c.mode == All ==>
          forall s | s in w.sender && line < s.createtxg :: w.born[Head(w'.receiver)] < s.createtxg || s.guid in w'.receiver)
  }

  /** The receiver's newest snapshot is no older than any listed one, and is the
      newest listed one unless a shared bookmark is younger still. */
  ghost predicate UpToDate(w: World, receiver: seq<nat>)
    requires w.sender != []
  {
    && receiver != [] && Head(receiver) in w.born
    && (forall s | s in w.sender :: s.createtxg <= w.born[Head(receiver)])
    && (NothingOvertakes(w) ==> Head(receiver) == NewestListed(w).guid)
  }

  /** What the first planning round of a startable pair does. */
  ghost predicate FirstRound(c: P.Config, w: World, x: Weather, outcome: StepOutcome, w': World)
    requires w.sender != []
  {
    if outcome == Done then
      && w.receiver != []
      && UpToDate(w, w.receiver)
      && (c.mode == All ==> Covered(w, w.receiver, StartLine(c, w, x)))
    else outcome == Advanced && Arrived(c, w, StartLine(c, w, x), w')
  }

  lemma FirstSync(c: P.Config, w: World, x: Weather)
    requires Consistent(w) && Fair(x) && !w.present && w.receiver == [] && w.partial.None?
    ensures FirstRound(c, w, x, StepOf(c, w, x).0, StepOf(c, w, x).1)
  {
    var inp := InputsOf(c, w, x);
    FullIffTargetAbsent(inp);
    var plan := PlanOneFilesystem(inp).value;
    var at := if c.mode == All then 0 else |w.sender| - 1;
    SameGuidSameTxg(w.born, w.sender, at);
    LandedIsConsistent(c, w, plan, x);
  }

  lemma ResumedStart(c: P.Config, w: World, x: Weather)
    requires Consistent(w) && Fair(x) && Startable(c, w, x) && Resumes(InputsOf(c, w, x))
    ensures FirstRound(c, w, x, StepOf(c, w, x).0, StepOf(c, w, x).1)
  {
    var inp := InputsOf(c, w, x);
    var plan := Resume(w.partial.value.token, inp.decoded.value);
    assert PlanOneFilesystem(inp) == Ok(plan);
    var s :| s in w.sender && s.guid == w.partial.value.to;
    LandedIsConsistent(c, w, plan, x);
  }

  lemma DeltaStart(c: P.Config, w: World, x: Weather)
    requires Consistent(w) && Fair(x) && Startable(c, w, x) && !Resumes(InputsOf(c, w, x))
    requires w.receiver != [] && CanAdvance(c, w, x)
    ensures FirstRound(c, w, x, StepOf(c, w, x).0, StepOf(c, w, x).1)
  {
    var inp := InputsOf(c, w, x);
    HeadIsShared(c, w, x);
    var plan := PlanOneFilesystem(inp).value;
    if plan.Nothing? {
      NothingToStart(c, w, x);
    } else {
      DeltaMeansYoungest(c, w, x, plan);
      FirstDelta(c, w, x, plan);
      HeadInHistory(w);
      if c.mode == All {
        DeltaSkipsNothing(c, w, x, plan);
      }
    }
  }

  lemma InputsAreFaithful(c: P.Config, w: World, x: Weather)
    requires Consistent(w) && Fair(x) && w.receiver != [] && CanName(w, Head(w.receiver))
    ensures Faithful(w.born, InputsOf(c, w, x)) && Common(InputsOf(c, w, x), Head(w.receiver))
    ensures InputsOf(c, w, x).fallback.Some? && InputsOf(c, w, x).sender != [] && InputsOf(c, w, x).receiver != []
    ensures InputsOf(c, w, x).targetExists
  {
  }

  lemma HeadIsShared(c: P.Config, w: World, x: Weather)
    requires Consistent(w) && Fair(x) && w.receiver != [] && CanName(w, Head(w.receiver))
    requires !Resumes(InputsOf(c, w, x))
    ensures Faithful(w.born, InputsOf(c, w, x)) && Common(InputsOf(c, w, x), Head(w.receiver))
    ensures PlanOneFilesystem(InputsOf(c, w, x)).Ok?
    ensures !PlanOneFilesystem(InputsOf(c, w, x)).value.Resume?
    ensures !PlanOneFilesystem(InputsOf(c, w, x)).value.Full?
  {
    InputsAreFaithful(c, w, x);
    SharedHeadPlans(InputsOf(c, w, x), Head(w.receiver));
  }

  lemma SharedHeadPlans(inp: Inputs, g: nat)
    requires ReplyShape(inp) && inp.sender != [] && inp.receiver != [] && inp.targetExists && inp.fallback.Some?
    requires Common(inp, g) && !Resumes(inp)
    ensures PlanOneFilesystem(inp).Ok?
    ensures !PlanOneFilesystem(inp).value.Resume? && !PlanOneFilesystem(inp).value.Full?
  {
    DivergedIffNothingShared(inp);
    FullIffTargetAbsent(inp);
    ResumeOrDiscardIsExact(inp, PlanOneFilesystem(inp).value);
  }

  /** Planned in `latest` mode although the newest listed snapshot is shared, a
      step can only be empty. */
  lemma SharedNewestMeansNothing(inp: Inputs)
    requires inp.sender != [] && inp.receiver != [] && !Resumes(inp)
    requires inp.sender[|inp.sender| - 1].guid in inp.receiver
    ensures PlanOneFilesystem(inp) == Ok(Nothing)
  {
    assert LastCommon(inp.sender, inp.receiver) == Some(|inp.sender| - 1);
    assert PickForReply(inp) == PickPlanWithDiscard(inp.sender, inp.receiver, inp.token.Some?, inp.mode);
  }

  lemma DeltaMeansYoungest(c: P.Config, w: World, x: Weather, plan: SnapshotPlan)
    requires Consistent(w) && Fair(x) && !Resumes(InputsOf(c, w, x)) && w.receiver != [] && CanAdvance(c, w, x)
    requires PlanOneFilesystem(InputsOf(c, w, x)) == Ok(plan) && plan.Delta()
    ensures c.mode == Latest ==> HeadIsYoungest(w)
  {
    if NewestListed(w).guid in w.receiver {
      SharedNewestMeansNothing(InputsOf(c, w, x));
    }
  }

  lemma FirstDelta(c: P.Config, w: World, x: Weather, plan: SnapshotPlan)
    requires Consistent(w) && Fair(x) && Startable(c, w, x)
    requires w.receiver != [] && (c.mode == Latest ==> HeadIsYoungest(w))
    requires Faithful(w.born, InputsOf(c, w, x)) && Common(InputsOf(c, w, x), Head(w.receiver))
    requires PlanOneFilesystem(InputsOf(c, w, x)) == Ok(plan) && plan.Delta()
    ensures plan.from.guid == Head(w.receiver) && plan.to.guid in w.born
    ensures StepOf(c, w, x) == (Advanced, Landed(c, w, plan, x))
    ensures
      var w' := Landed(c, w, plan, x);
      && Consistent(w') && w'.partial.None? && w'.receiver != []
      && Head(w'.receiver) == plan.to.guid && plan.to.guid in Guids(w.sender)
  {
    var inp := InputsOf(c, w, x);
    EmittedDeltaIsReceivable(w.born, inp, plan);
    ResumeOrDiscardIsExact(inp, plan);
    assert c.mode == Latest ==> HeadBeatsBookmarks(inp);
    LandedIsConsistent(c, w, plan, x);
  }

  lemma NothingToStart(c: P.Config, w: World, x: Weather)
    requires Consistent(w) && Fair(x) && Startable(c, w, x) && w.receiver != []
    requires PlanOneFilesystem(InputsOf(c, w, x)) == Ok(Nothing)
    ensures FirstRound(c, w, x, StepOf(c, w, x).0, StepOf(c, w, x).1)
  {
    NothingMeansCaughtUp(w.born, InputsOf(c, w, x));
    NothingYounger(w);
  }

  /** Sharing the newest listed snapshot, or a bookmark as young, the receiver
      is up to date. */
  lemma NothingYounger(w: World)
    requires Consistent(w) && w.receiver != [] && CanName(w, Head(w.receiver))
    requires
      || NewestListed(w).guid in w.receiver
      || exists b :: b in w.bookmarks && b.guid in w.receiver && forall s | s in w.sender :: s.createtxg <= b.createtxg
    ensures UpToDate(w, w.receiver)
  {
    HeadInHistory(w);
    SameGuidSameTxg(w.born, w.sender, |w.sender| - 1);
    if NewestListed(w).guid in w.receiver {
      HeadIsNewest(w.born, w.receiver, NewestListed(w).guid);
    } else {
      var b :| b in w.bookmarks && b.guid in w.receiver && forall s | s in w.sender :: s.createtxg <= b.createtxg;
      HeadIsNewest(w.born, w.receiver, b.guid);
      assert NewestListed(w) in w.sender;
    }
    YoungHeadIsUpToDate(w);
  }

  /** A head as young as the newest listed snapshot is that snapshot, or a shared
      bookmark that overtakes it. */
  lemma YoungHead(w: World)
    requires Consistent(w) && w.receiver != [] && CanName(w, Head(w.receiver)) && Head(w.receiver) in w.born
    requires NewestListed(w).createtxg <= w.born[Head(w.receiver)] && NothingOvertakes(w)
    ensures Head(w.receiver) == NewestListed(w).guid
  {
    HeadInHistory(w);
    SameGuidSameTxg(w.born, w.sender, |w.sender| - 1);
  }

  lemma YoungHeadIsUpToDate(w: World)
    requires Consistent(w) && w.receiver != [] && CanName(w, Head(w.receiver)) && Head(w.receiver) in w.born
    requires NewestListed(w).createtxg <= w.born[Head(w.receiver)]
    ensures UpToDate(w, w.receiver)
  {
    if NothingOvertakes(w) {
      YoungHead(w);
    }
    forall s | s in w.sender
      ensures s.createtxg <= NewestListed(w).createtxg
    {
      NewestIsYoungest(w.sender, s);
    }
  }

  lemma NewestIsYoungest(sender: seq<SnapshotEntry>, s: SnapshotEntry)
    requires Sorted(sender) && s in sender
    ensures s.createtxg <= sender[|sender| - 1].createtxg
  {
  }

  lemma NewestHeadIsUpToDate(w: World, receiver: seq<nat>)
    requires Consistent(w) && receiver != [] && Head(receiver) == NewestListed(w).guid
    ensures UpToDate(w, receiver)
  {
    SameGuidSameTxg(w.born, w.sender, |w.sender| - 1);
  }

  lemma HeadInHistory(w: World)
    requires Consistent(w) && w.receiver != [] && CanName(w, Head(w.receiver))
    ensures Head(w.receiver) in w.born
    ensures Head(w.receiver) !in Guids(w.sender) ==>
              exists b :: b in w.bookmarks && b.guid == Head(w.receiver) && b.createtxg == w.born[b.guid]
    ensures Head(w.receiver) in Guids(w.sender) ==> w.born[Head(w.receiver)] <= NewestListed(w).createtxg
  {
    if Head(w.receiver) in Guids(w.sender) {
      var k :| 0 <= k < |w.sender| && w.sender[k].guid == Head(w.receiver);
      SameGuidSameTxg(w.born, w.sender, k);
    } else {
      var b :| b in w.bookmarks && b.guid == Head(w.receiver);
    }
  }

  /** `-i` is only planned in `all` mode when nothing lies in between. */
  lemma SingleDeltaSkipsNothing(c: P.Config, w: World, x: Weather, plan: SnapshotPlan, s: SnapshotEntry)
    requires Consistent(w) && Fair(x) && c.mode == All && SnapshotBased(InputsOf(c, w, x), plan) && plan.Incremental?
    requires s in w.sender && plan.from.guid in w.born && w.born[plan.from.guid] < s.createtxg
    ensures s.guid == plan.to.guid
  {
    var i := LastCommon(w.sender, w.receiver).value;
    SameGuidSameTxg(w.born, w.sender, i);
    OnlyTheLastFollows(w.sender, i);
  }

  /** `-I` carries what lies in between. */
  lemma RangeDeltaSkipsNothing(c: P.Config, w: World, x: Weather, plan: SnapshotPlan, s: SnapshotEntry)
    requires Consistent(w) && plan.IncrementalAll?
    requires s in w.sender && plan.from.guid in w.born && plan.to.guid in w.born
    requires w.born[plan.from.guid] < s.createtxg <= w.born[plan.to.guid]
    ensures s.guid in Landed(c, w, plan, x).receiver
  {
    if s.createtxg < w.born[plan.to.guid] {
      P.BetweenIsComplete(w.snaps, w.born[plan.from.guid], w.born[plan.to.guid], s);
    } else {
      assert w.born[s.guid] == w.born[plan.to.guid];
    }
  }

  lemma BookmarkDeltaSkipsNothing(c: P.Config, w: World, x: Weather, plan: SnapshotPlan, s: SnapshotEntry)
    requires Consistent(w) && Fair(x) && c.mode == All && BookmarkBased(InputsOf(c, w, x), plan)
    requires s in w.sender && plan.from.guid in w.born && plan.to.guid in w.born
    requires w.born[plan.from.guid] < s.createtxg <= w.born[plan.to.guid]
    ensures s.guid == plan.to.guid
  {
    var b := BestBookmark(w.bookmarks, w.receiver).value;
    var next := FirstAfter(w.sender, b.createtxg).value;
    SameGuidSameTxg(w.born, w.sender, next);
    var k :| 0 <= k < |w.sender| && w.sender[k] == s;
  }

  /** In `all` mode the first delta passes over no snapshot younger than the
      receiver's head. */
  lemma DeltaSkipsNothing(c: P.Config, w: World, x: Weather, plan: SnapshotPlan)
    requires Consistent(w) && Fair(x) && w.receiver != [] && Head(w.receiver) in w.born
    requires PlanOneFilesystem(InputsOf(c, w, x)) == Ok(plan) && plan.Delta() && plan.from.guid == Head(w.receiver)
    requires c.mode == All && plan.to.guid in w.born
    ensures forall s | s in w.sender && w.born[Head(w.receiver)] < s.createtxg ::
              w.born[plan.to.guid] < s.createtxg || s.guid in Landed(c, w, plan, x).receiver
  {
    var inp := InputsOf(c, w, x);
    DeltaShape(inp, plan);
    forall s | s in w.sender && w.born[Head(w.receiver)] < s.createtxg <= w.born[plan.to.guid]
      ensures s.guid in Landed(c, w, plan, x).receiver
    {
      if SnapshotBased(inp, plan) {
        if plan.Incremental? {
          SingleDeltaSkipsNothing(c, w, x, plan, s);
        } else {
          RangeDeltaSkipsNothing(c, w, x, plan, s);
        }
      } else {
        BookmarkDeltaSkipsNothing(c, w, x, plan, s);
      }
    }
  }

  lemma FirstRoundOf(c: P.Config, w: World, x: Weather) returns (outcome: StepOutcome, w': World)
    requires Consistent(w) && Fair(x) && Startable(c, w, x)
    requires CanAdvance(c, w, x)
    ensures Steps(StepperOf(c), w, x, outcome, w') && FirstRound(c, w, x, outcome, w') && (outcome == Done ==> w' == w)
  {
    if Resumes(InputsOf(c, w, x)) {
      ResumedStart(c, w, x);
    } else if w.receiver != [] {
      DeltaStart(c, w, x);
    } else {
      FirstSync(c, w, x);
    }
    outcome, w' := StepOf(c, w, x).0, StepOf(c, w, x).1;
  }

  /** What is claimed of a whole cycle. */
  ghost predicate Converged(c: P.Config, w: World, line: int, r: Report)
    requires w.sender != []
  {
    && r.verdict == CaughtUp && r.streams <= 2
    && UpToDate(w, r.world.receiver)
    && (r.streams > 0 ==> Head(r.world.receiver) == NewestListed(w).guid)
    && (c.mode == All ==> Covered(w, r.world.receiver, line))
  }

  lemma ConvergedAfterFirst(c: P.Config, w: World, w': World, line: int, rest: Report)
    requires Consistent(w) && Arrived(c, w, line, w') && Finished(c, w', rest)
    ensures Converged(c, w, line, OneMore(rest))
  {
    NewestHeadIsUpToDate(w, rest.world.receiver);
    if c.mode == All {
      CoveredInTwo(c, w, w', line, rest.world.receiver);
    }
  }

  lemma CoveredInTwo(c: P.Config, w: World, w': World, line: int, receiver: seq<nat>)
    requires Arrived(c, w, line, w') && c.mode == All
    requires forall g | g in w'.receiver :: g in receiver
    requires Covered(w', receiver, w'.born[Head(w'.receiver)])
    ensures Covered(w, receiver, line)
  {
  }

  /** After a first stream that landed on a listed snapshot. */
  lemma FinishAfterFirst(c: P.Config, w: World, w': World, weather: seq<Weather>, left: nat, x: Weather, line: int)
    returns (r: Report)
    requires 3 <= left <= |weather| && AllFair(weather) && weather[|weather| - left] == x && !x.cancelled
    requires Steps(StepperOf(c), w, x, Advanced, w') && Consistent(w) && Arrived(c, w, line, w')
    ensures Ends(StepperOf(c), w, weather, left, r) && Converged(c, w, line, r)
  {
    var next := left - 1;
    var rest := FinishFromListedHead(c, w', weather, next);
    EndsAdvance(StepperOf(c), w, w', weather, left, next, x, rest);
    r := OneMore(rest);
    ConvergedAfterFirst(c, w, w', line, rest);
  }

  /** The whole loop, as a report that meets the claim. */
  lemma Converge(c: P.Config, w: World, weather: seq<Weather>, left: nat, x: Weather) returns (r: Report)
    requires 3 <= left <= |weather| && AllFair(weather) && weather[|weather| - left] == x && Fair(x)
    requires Consistent(w) && Startable(c, w, x)
    requires CanAdvance(c, w, x)
    ensures Ends(StepperOf(c), w, weather, left, r) && Converged(c, w, StartLine(c, w, x), r)
  {
    var outcome, w' := FirstRoundOf(c, w, x);
    if outcome == Advanced {
      r := FinishAfterFirst(c, w, w', weather, left, x, StartLine(c, w, x));
    } else {
      EndsDone(StepperOf(c), w, weather, left, x);
      r := Report(w, 0, CaughtUp);
    }
  }

  /** Where the first round cannot plan forward, its delta is refused. */
  lemma StuckStep(c: P.Config, w: World, x: Weather)
    requires Consistent(w) && Fair(x) && Startable(c, w, x) && !CanAdvance(c, w, x)
    ensures Steps(StepperOf(c), w, x, Failed(false), w)
  {
    var inp := InputsOf(c, w, x);
    HeadIsShared(c, w, x);
    var plan := PlanOneFilesystem(inp).value;
    if plan.Nothing? {
      NothingMeansCaughtUp(w.born, inp);
    } else {
      EmittedDeltaIsReceivable(w.born, inp, plan);
      StuckPlanIsRefused(w, inp, plan);
    }
  }

  lemma StuckPlanIsRefused(w: World, inp: Inputs, plan: SnapshotPlan)
    requires plan.Delta() && inp.sender == w.sender && inp.receiver == w.receiver
    requires !ZfsAccepts(w.born, inp.sender, inp.receiver, inp.targetExists, plan)
    ensures !Receivable(w, plan)
  {
  }

  lemma EndsFailed(step: Stepper, w: World, weather: seq<Weather>, left: nat, x: Weather)
    requires 0 < left <= |weather| && weather[|weather| - left] == x && Steps(step, w, x, Failed(false), w)
    ensures Ends(step, w, weather, left, Report(w, 0, StepFailed(false)))
  {
  }

  /** Main result: with working steps and a quiet sender the loop ends by itself
      exactly when its first round can plan forward, a matter of the listings
      alone. It then ends after at most two streams, far from its limit, with
      the receiver up to date; and in `all` mode nothing younger than the
      starting base was left out. Otherwise the first stream is refused and
      nothing has changed. */
  lemma CatchUpConverges(c: P.Config, w: World, weather: seq<Weather>)
    requires Consistent(w) && |weather| == MAX_STEPS_PER_CYCLE && AllFair(weather)
    requires Startable(c, w, weather[0])
    ensures Rounds(c, w, weather, MAX_STEPS_PER_CYCLE).verdict == CaughtUp <==> CanAdvance(c, w, weather[0])
    ensures CanAdvance(c, w, weather[0]) ==>
              Converged(c, w, StartLine(c, w, weather[0]), Rounds(c, w, weather, MAX_STEPS_PER_CYCLE))
    ensures !CanAdvance(c, w, weather[0]) ==>
              Rounds(c, w, weather, MAX_STEPS_PER_CYCLE) == Report(w, 0, StepFailed(false))
  {
    assert weather[0] in weather;
    var r: Report;
    if CanAdvance(c, w, weather[0]) {
      r := Converge(c, w, weather, MAX_STEPS_PER_CYCLE, weather[0]);
    } else {
      StuckStep(c, w, weather[0]);
      EndsFailed(StepperOf(c), w, weather, MAX_STEPS_PER_CYCLE, weather[0]);
      r := Report(w, 0, StepFailed(false));
    }
    assert Rounds(c, w, weather, MAX_STEPS_PER_CYCLE) == r;
  }
}
