/**
 Proof that every quiet run of the push protocol keeps the witness: the sender
 can always name the receiver's newest snapshot.
 */
module Witness {
  import opened Wrappers
  import opened Plan
  import opened Protocol
  import Names

  // ---------------------------------------------------------- the surroundings

  lemma TakeSnapshotSorted(born: map<nat, nat>, snaps: seq<SnapshotEntry>, entry: SnapshotEntry)
    requires Sorted(snaps) && KnownSnapshots(born, snaps)
    requires entry.guid !in born && forall g | g in born :: born[g] < entry.createtxg
    ensures Sorted(snaps + [entry]) && KnownSnapshots(born[entry.guid := entry.createtxg], snaps + [entry])
    ensures Guids(snaps) <= Guids(snaps + [entry])
  {
    var all := snaps + [entry];
    assert forall x | x in snaps :: x in all;
    forall i, j | 0 <= i < j < |all|
      ensures all[i].createtxg < all[j].createtxg
    {
      assert all[i] in snaps;
    }
  }

  lemma TakeSnapshotSane(c: Config, s: State, e: Event, s': State)
    requires Inv(c, s) && e.TakeSnapshot? && Next(c, s, e) == Some(s')
    ensures Sane(s')
    ensures Guids(s.snaps) <= Guids(s'.snaps)
  {
    TakeSnapshotSorted(s.born, s.snaps, e.entry);
  }

  lemma TakeSnapshotPhase(c: Config, s: State, e: Event, s': State)
    requires Inv(c, s) && e.TakeSnapshot? && Next(c, s, e) == Some(s') && Sane(s')
    ensures PhaseOk(c, s')
  {
  }

  lemma TakeSnapshotKeeps(c: Config, s: State, e: Event, s': State)
    requires Inv(c, s) && e.TakeSnapshot? && Next(c, s, e) == Some(s')
    ensures Inv(c, s')
  {
    TakeSnapshotSane(c, s, e, s');
    TakeSnapshotPhase(c, s, e, s');
  }

  lemma SenderDestroysSane(c: Config, s: State, e: Event, s': State)
    requires Inv(c, s) && e.SenderDestroys? && Next(c, s, e) == Some(s')
    ensures Sane(s')
    ensures forall g | g in s.stepHeld :: g in Guids(s'.snaps)
  {
  }

  lemma SenderDestroysKeeps(c: Config, s: State, e: Event, s': State)
    requires Inv(c, s) && e.SenderDestroys? && Next(c, s, e) == Some(s')
    ensures Inv(c, s')
  {
    SenderDestroysSane(c, s, e, s');
  }

  lemma ForeignBookmarkKeeps(c: Config, s: State, e: Event, s': State)
    requires Inv(c, s) && e.ForeignBookmark? && Next(c, s, e) == Some(s')
    ensures Inv(c, s')
  {
  }

  lemma ForeignBookmarkGoneKeeps(c: Config, s: State, e: Event, s': State)
    requires Inv(c, s) && e.ForeignBookmarkGone? && Next(c, s, e) == Some(s')
    ensures Inv(c, s')
  {
  }

  lemma ReceiverDestroysSane(c: Config, s: State, e: Event, s': State)
    requires Inv(c, s) && e.ReceiverDestroys? && Next(c, s, e) == Some(s')
    ensures Sane(s')
  {
  }

  lemma ReceiverDestroysKeeps(c: Config, s: State, e: Event, s': State)
    requires Inv(c, s) && e.ReceiverDestroys? && Next(c, s, e) == Some(s')
    ensures Inv(c, s')
  {
    ReceiverDestroysSane(c, s, e, s');
  }

  // ------------------------------------------------------- the receive process

  lemma LandSane(c: Config, s: State, e: Event, s': State)
    requires Inv(c, s) && e.Land? && QuietEvent(s, e) && Next(c, s, e) == Some(s')
    ensures Sane(s')
  {
    var st := s.recv.channel.stream;
    forall i, j | 0 <= i < j < |s'.recv.snaps| && s'.recv.snaps[i] in s.born && s'.recv.snaps[j] in s.born
      ensures s.born[s'.recv.snaps[i]] < s.born[s'.recv.snaps[j]]
    {
      if j >= |s.recv.snaps| {
        assert s'.recv.snaps[j] == (st.via + [st.to])[j - |s.recv.snaps|];
        if i < |s.recv.snaps| {
          assert s'.recv.snaps[i] == s.recv.snaps[i];
          assert s.born[s.recv.snaps[i]] <= s.born[Head(s.recv.snaps)];
        } else {
          assert s'.recv.snaps[i] == st.via[i - |s.recv.snaps|];
        }
      }
    }
  }

  lemma LandKeeps(c: Config, s: State, e: Event, s': State)
    requires Inv(c, s) && e.Land? && QuietEvent(s, e) && Next(c, s, e) == Some(s')
    ensures Inv(c, s')
  {
    LandSane(c, s, e, s');
  }

  lemma InterruptKeeps(c: Config, s: State, e: Event, s': State)
    requires Inv(c, s) && e.Interrupt? && QuietEvent(s, e) && Next(c, s, e) == Some(s')
    ensures Inv(c, s')
  {
    assert s'.recv.snaps == s.recv.snaps;
  }

  lemma HandOverKeeps(c: Config, s: State, e: Event, s': State)
    requires Inv(c, s) && Next(c, s, e) == Some(s')
    requires e.ReleaseTag? || e.Answer? || e.ChannelDies? || e.LateReleaseTag? || e.LateEnds?
    ensures Inv(c, s')
  {
  }

  // ------------------------------------------------------------- the planner

  lemma ListSenderKeeps(c: Config, s: State, e: Event, s': State)
    requires Inv(c, s) && e.ListSender? && Next(c, s, e) == Some(s')
    ensures Inv(c, s')
  {
  }

  lemma ListReceiverKeeps(c: Config, s: State, e: Event, s': State)
    requires Inv(c, s) && e.ListReceiver? && QuietEvent(s, e) && Next(c, s, e) == Some(s')
    ensures Inv(c, s')
  {
  }

  lemma PrepareKeeps(c: Config, s: State, e: Event, s': State)
    requires Inv(c, s) && e.Prepare? && Next(c, s, e) == Some(s')
    ensures Inv(c, s')
  {
  }

  // ------------------------------------------------------------- the executor

  lemma PlaceKeeps(c: Config, s: State, e: Event, s': State)
    requires Inv(c, s) && e.Place? && Next(c, s, e) == Some(s')
    ensures Inv(c, s')
  {
  }

  lemma ListHoldsKeeps(c: Config, s: State, e: Event, s': State)
    requires Inv(c, s) && e.ListHolds? && Next(c, s, e) == Some(s')
    ensures Inv(c, s')
  {
  }

  lemma ReleaseKeeps(c: Config, s: State, e: Event, s': State)
    requires Inv(c, s) && e.Release? && Next(c, s, e) == Some(s')
    ensures Inv(c, s')
  {
  }

  lemma OpenRecvKeeps(c: Config, s: State, e: Event, s': State)
    requires Inv(c, s) && e.OpenRecv? && QuietEvent(s, e) && Next(c, s, e) == Some(s')
    ensures Inv(c, s')
  {
    var plan := s.phase.plan;
    if plan.IncrementalAll? {
      BetweenAscends(s.born, s.snaps, s.born[plan.from.guid], s.born[plan.to.guid]);
    }
  }

  // --------------------------------------------------------------- the commit

  lemma CreateCursorKeeps(c: Config, s: State, e: Event, s': State)
    requires Inv(c, s) && e.CreateCursor? && Next(c, s, e) == Some(s')
    ensures Inv(c, s')
  {
    var to := s.phase.to;
    if e.ok || e.taken {
      var b := BookmarkRef(Names.CursorLeaf(to, c.job, c.peer), to, s.born[to]);
      Names.LeafEndsInTail(to, c.job, c.peer);
      assert b in s'.bookmarks && Own(c, b);
    }
  }

  lemma DropCursorKeeps(c: Config, s: State, e: Event, s': State)
    requires Inv(c, s) && e.DropCursor? && Next(c, s, e) == Some(s')
    ensures Inv(c, s')
  {
    KeptCursorIsOwn(c, s);
    var b := BookmarkRef(Names.CursorLeaf(s.phase.to, c.job, c.peer), s.phase.to, s.born[s.phase.to]);
    assert b in s'.bookmarks;
  }

  lemma KeptCursorIsOwn(c: Config, s: State)
    requires Inv(c, s) && s.phase.DroppingCursors?
    ensures Own(c, BookmarkRef(Names.CursorLeaf(s.phase.to, c.job, c.peer), s.phase.to, s.born[s.phase.to]))
    ensures HasCursor(c, s.bookmarks, s.phase.to)
  {
    Names.LeafEndsInTail(s.phase.to, c.job, c.peer);
  }

  lemma ListTagsKeeps(c: Config, s: State, e: Event, s': State)
    requires Inv(c, s) && e.ListTags? && Next(c, s, e) == Some(s')
    ensures Inv(c, s')
  {
    KeptCursorIsOwn(c, s);
  }

  lemma EndsKeep(c: Config, s: State, e: Event, s': State)
    requires Inv(c, s) && (e.SeeAnswer? || e.Finish? || e.GiveUp?) && Next(c, s, e) == Some(s')
    ensures Inv(c, s')
  {
  }

  // ------------------------------------------------------ the planner's choice

  /** If only a listed, held snapshot names the receiver's head, the plan is
      based on it, so the step keeps holding it. */
  lemma PlanKeepsTheHead(born: map<nat, nat>, inp: Inputs, plan: SnapshotPlan)
    requires Sorted(inp.sender) && KnownSnapshots(born, inp.sender) && Ordered(born, inp.receiver)
    requires inp.fallback.Some? ==> KnownBookmarks(born, inp.fallback.value)
    requires inp.receiver != [] && Head(inp.receiver) in Guids(inp.sender)
    requires inp.decoded.Some? ==> inp.decoded.value.fromGuid == Some(Head(inp.receiver))
    requires PlanOneFilesystem(inp) == Ok(plan) && !plan.Nothing?
    ensures Head(inp.receiver) in Keep(inp.sender, plan)
  {
    if plan.Resume? {
      assert HoldTargets(inp.sender, plan)[0] == Head(inp.receiver);
    } else {
      var picked := PickPlanWithDiscard(inp.sender, inp.receiver, inp.token.Some?, inp.mode);
      assert PickForReply(inp) == picked || PickForReply(inp).Resume?;
      FallbackKeepsListedHead(born, inp, picked);
      assert plan == picked;
      assert HoldTargets(inp.sender, plan)[0] == Head(inp.receiver);
    }
  }

  /** The inputs of the decision: the reply, the bookmarks read since, and
      whether the token decoded. */
  function DecisionInputs(s: State, e: Event): Inputs
    requires s.phase.Replied? && e.Decide?
  {
    s.phase.inp.(decoded := if e.decodes then s.phase.inp.decoded else None,
                 tokenBookmarks := e.tokenBookmarks,
                 fallback := if e.fallbackRead then Some(s.bookmarks) else None)
  }

  lemma ToGuidIsListed(inp: Inputs, plan: SnapshotPlan)
    requires PlanOneFilesystem(inp) == Ok(plan) && !plan.Nothing?
    ensures ToGuid(plan) in Guids(inp.sender)
  {
    if !plan.Resume? {
      ToIsListed(inp, plan);
    }
  }

  lemma DecisionSparesTheHead(c: Config, s: State, e: Event, plan: SnapshotPlan)
    requires Inv(c, s) && e.Decide? && s.phase.Replied?
    requires PlanOneFilesystem(DecisionInputs(s, e)) == Ok(plan) && !plan.Nothing?
    ensures Spared(c, s, Keep(s.phase.list, plan))
  {
    if s.received && !HasCursor(c, s.bookmarks, Head(s.recv.snaps)) {
      PlanKeepsTheHead(s.born, DecisionInputs(s, e), plan);
    }
  }

  lemma DecideKeeps(c: Config, s: State, e: Event, s': State)
    requires Inv(c, s) && e.Decide? && Next(c, s, e) == Some(s')
    ensures Inv(c, s')
  {
    if s'.phase.Planned? {
      ToGuidIsListed(DecisionInputs(s, e), s'.phase.plan);
      DecisionSparesTheHead(c, s, e, s'.phase.plan);
      assert PlanOk(c, s', s'.phase.list, s'.phase.plan);
    }
  }

  // --------------------------------------------------------------- every run

  lemma EnvironmentKeepsInvariant(c: Config, s: State, e: Event, s': State)
    requires Inv(c, s) && EnvironmentEvent(e) && Next(c, s, e) == Some(s')
    ensures Inv(c, s')
  {
    match e {
      case TakeSnapshot(_, _) => TakeSnapshotKeeps(c, s, e, s');
      case SenderDestroys(_) => SenderDestroysKeeps(c, s, e, s');
      case ForeignBookmark(_) => ForeignBookmarkKeeps(c, s, e, s');
      case ForeignBookmarkGone(_) => ForeignBookmarkGoneKeeps(c, s, e, s');
      case ReceiverDestroys(_) => ReceiverDestroysKeeps(c, s, e, s');
      case GiveUp => EndsKeep(c, s, e, s');
    }
  }

  lemma ReceiverKeepsInvariant(c: Config, s: State, e: Event, s': State)
    requires Inv(c, s) && ReceiveEvent(e) && QuietEvent(s, e) && Next(c, s, e) == Some(s')
    ensures Inv(c, s')
  {
    if e.Land? {
      LandKeeps(c, s, e, s');
    } else if e.Interrupt? {
      InterruptKeeps(c, s, e, s');
    } else {
      HandOverKeeps(c, s, e, s');
    }
  }

  lemma PlannerKeepsInvariant(c: Config, s: State, e: Event, s': State)
    requires Inv(c, s) && PlanningEvent(e) && QuietEvent(s, e) && Next(c, s, e) == Some(s')
    ensures Inv(c, s')
  {
    match e {
      case ListSender => ListSenderKeeps(c, s, e, s');
      case ListReceiver(_) => ListReceiverKeeps(c, s, e, s');
      case Decide(_, _, _) => DecideKeeps(c, s, e, s');
      case Prepare => PrepareKeeps(c, s, e, s');
    }
  }

  lemma ExecutorKeepsInvariant(c: Config, s: State, e: Event, s': State)
    requires Inv(c, s) && ExecutingEvent(e) && QuietEvent(s, e) && Next(c, s, e) == Some(s')
    ensures Inv(c, s')
  {
    match e {
      case Place => PlaceKeeps(c, s, e, s');
      case ListHolds(_) => ListHoldsKeeps(c, s, e, s');
      case Release(_, _) => ReleaseKeeps(c, s, e, s');
      case OpenRecv => OpenRecvKeeps(c, s, e, s');
    }
  }

  lemma CommitKeepsInvariant(c: Config, s: State, e: Event, s': State)
    requires Inv(c, s) && Next(c, s, e) == Some(s')
    requires !EnvironmentEvent(e) && !ReceiveEvent(e) && !PlanningEvent(e) && !ExecutingEvent(e)
    ensures Inv(c, s')
  {
    match e {
      case CreateCursor(_, _, _) => CreateCursorKeeps(c, s, e, s');
      case DropCursor(_, _) => DropCursorKeeps(c, s, e, s');
      case ListTags(_) => ListTagsKeeps(c, s, e, s');
      case SeeAnswer => EndsKeep(c, s, e, s');
      case Finish => EndsKeep(c, s, e, s');
    }
  }

  lemma StepKeepsInvariant(c: Config, s: State, e: Event, s': State)
    requires Inv(c, s) && QuietEvent(s, e) && Next(c, s, e) == Some(s')
    ensures Inv(c, s')
  {
    if EnvironmentEvent(e) {
      EnvironmentKeepsInvariant(c, s, e, s');
    } else if ReceiveEvent(e) {
      ReceiverKeepsInvariant(c, s, e, s');
    } else if PlanningEvent(e) {
      PlannerKeepsInvariant(c, s, e, s');
    } else if ExecutingEvent(e) {
      ExecutorKeepsInvariant(c, s, e, s');
    } else {
      CommitKeepsInvariant(c, s, e, s');
    }
  }

  lemma {:induction false} RunKeepsInvariant(c: Config, s: State, events: seq<Event>, s': State)
    requires Inv(c, s) && QuietRun(c, s, events) && Run(c, s, events) == Some(s')
    ensures Inv(c, s')
    decreases |events|
  {
    if events != [] {
      var next := Next(c, s, events[0]).value;
      StepKeepsInvariant(c, s, events[0], next);
      RunKeepsInvariant(c, next, events[1..], s');
    }
  }

  /** Main result: over every quiet run, through crashes, broken streams, failed
      cursor creation and destruction on both sides, the sender can name the
      receiver's newest snapshot from the first receive on. */
  lemma WitnessOverEveryRun(c: Config, s: State, events: seq<Event>, s': State)
    requires Init(s) && QuietRun(c, s, events) && Run(c, s, events) == Some(s')
    ensures Witness(c, s')
  {
    RunKeepsInvariant(c, s, events, s');
  }

  /** What the next planner would read in state `s`. */
  function FreshInputs(c: Config, s: State, tokenSeen: bool): Inputs {
    var p := if tokenSeen then s.recv.partial else None;
    Inputs(Select(s.snaps, s.matching), s.recv.snaps, s.recv.present,
           if p.Some? then Some(p.value.token) else None,
           if p.Some? then Some(ResumeToken("", p.value.to, p.value.base)) else None,
           s.bookmarks, Some(s.bookmarks), c.mode)
  }

  /** Its consequence for the next step: after a quiet run that has received, a
      plan made from successful listings is never a refusal and never a full
      resend; a delta starts at the receiver's newest snapshot and is accepted
      whenever it moves forward; a resume matches the partial state. */
  lemma IncrementalityIsNeverLost(c: Config, s: State, events: seq<Event>, s': State, tokenSeen: bool)
    requires Init(s) && QuietRun(c, s, events) && Run(c, s, events) == Some(s')
    ensures s'.received && Select(s'.snaps, s'.matching) != [] ==>
      var inp := FreshInputs(c, s', tokenSeen);
      && PlanOneFilesystem(inp).Ok?
      && var plan := PlanOneFilesystem(inp).value;
         && !plan.Full?
         && (plan.Delta() ==> plan.from.guid == Head(s'.recv.snaps))
         && (plan.Delta() && (c.mode == All || HeadBeatsBookmarks(inp)) ==>
               ZfsAccepts(s'.born, inp.sender, s'.recv.snaps, true, plan))
         && (plan.Resume? ==> Admits(s', plan))
  {
    RunKeepsInvariant(c, s, events, s');
    if s'.received && Select(s'.snaps, s'.matching) != [] {
      NextPlanContinues(c, s', tokenSeen);
    }
  }

  lemma NextPlanContinues(c: Config, s: State, tokenSeen: bool)
    requires Inv(c, s) && s.received && Select(s.snaps, s.matching) != []
    ensures
      var inp := FreshInputs(c, s, tokenSeen);
      && PlanOneFilesystem(inp).Ok?
      && var plan := PlanOneFilesystem(inp).value;
         && !plan.Full?
         && (plan.Delta() ==> plan.from.guid == Head(s.recv.snaps))
         && (plan.Delta() && (c.mode == All || HeadBeatsBookmarks(inp)) ==>
               ZfsAccepts(s.born, inp.sender, s.recv.snaps, true, plan))
         && (plan.Resume? ==> Admits(s, plan))
  {
    var inp := FreshInputs(c, s, tokenSeen);
    assert Faithful(s.born, inp);
    HeadIsCommon(c, s, tokenSeen);
    DivergedIffNothingShared(inp);
    var plan := PlanOneFilesystem(inp).value;
    if plan.Delta() {
      EmittedDeltaIsReceivable(s.born, inp, plan);
    } else if plan.Resume? {
      ResumeOrDiscardIsExact(inp, plan);
    }
  }

  lemma HeadIsCommon(c: Config, s: State, tokenSeen: bool)
    requires Inv(c, s) && s.received
    ensures s.recv.snaps != [] && Common(FreshInputs(c, s, tokenSeen), Head(s.recv.snaps))
  {
    var h := Head(s.recv.snaps);
    if HasCursor(c, s.bookmarks, h) {
      var b :| b in s.bookmarks && b.guid == h && Own(c, b);
    } else {
      var x :| x in s.snaps && x.guid == h;
      assert x in Select(s.snaps, s.matching);
    }
  }
}
