/**
 The pure planner of `daemon/src/jobs/push/plan.rs`: what to send to one
 receiver dataset, from which base, and how the decision reaches the wire.

 Every listing the planner reads is an argument, so a failed listing is a
 `None` and an undecodable token is a token without a decoded value.
 */
module Plan {
  import opened Wrappers

  datatype SnapshotEntry = SnapshotEntry(name: string, guid: nat, createtxg: nat)

  datatype SnapshotRef = SnapshotRef(name: string, guid: nat)

  /** `leaf` is the part of a bookmark name after `#`. */
  datatype BookmarkRef = BookmarkRef(leaf: string, guid: nat, createtxg: nat)

  datatype ReplicateMode = All | Latest

  /** The fields of a decoded `receive_resume_token` the planner looks at. */
  datatype ResumeToken = ResumeToken(toName: string, toGuid: nat, fromGuid: Option<nat>)

  datatype SnapshotPlan =
    | Nothing
    | Full(to: SnapshotRef, discard: bool)
    | Incremental(from: SnapshotRef, to: SnapshotRef, discard: bool)
    | IncrementalAll(from: SnapshotRef, to: SnapshotRef, discard: bool)
    | IncrementalFromBookmark(from: SnapshotRef, to: SnapshotRef, discard: bool)
    | Resume(token: string, decoded: ResumeToken)
  {
    /** A delta over something the receiver already holds. */
    predicate Delta() {
      Incremental? || IncrementalAll? || IncrementalFromBookmark?
    }
  }

  datatype PlanError = Diverged(receiverSnapshots: nat) | Placeholder

  /** Everything `plan_one_filesystem` reads. `receiver` lists GUIDs in the
      order the receiver committed them; `tokenBookmarks` is the listing used
      to validate a token, `fallback` the one used by the bookmark fallback. */
  datatype Inputs = Inputs(
    sender: seq<SnapshotEntry>,
    receiver: seq<nat>,
    targetExists: bool,
    token: Option<string>,
    decoded: Option<ResumeToken>,
    tokenBookmarks: seq<BookmarkRef>,
    fallback: Option<seq<BookmarkRef>>,
    mode: ReplicateMode)

  // ---------------------------------------------------------------- listings

  function SnapRef(s: SnapshotEntry): SnapshotRef {
    SnapshotRef(s.name, s.guid)
  }

  function Guids(snaps: seq<SnapshotEntry>): set<nat> {
    set s | s in snaps :: s.guid
  }

  function BookmarkGuids(bookmarks: seq<BookmarkRef>): set<nat> {
    set b | b in bookmarks :: b.guid
  }

  /** The highest index whose GUID the receiver has. */
  function LastCommon(sender: seq<SnapshotEntry>, recv: seq<nat>): (r: Option<nat>)
    ensures r.Some? ==> r.value < |sender| && sender[r.value].guid in recv
    ensures r.Some? ==> forall k | r.value < k < |sender| :: sender[k].guid !in recv
    ensures r.None? ==> forall k | 0 <= k < |sender| :: sender[k].guid !in recv
  {
    if sender == [] then None
    else if sender[|sender| - 1].guid in recv then Some(|sender| - 1)
    else LastCommon(sender[..|sender| - 1], recv)
  }

  /** Creation txg of the first entry carrying `guid`. */
  function TxgOf(sender: seq<SnapshotEntry>, guid: nat): (r: Option<nat>)
    ensures r.Some? ==> exists s :: s in sender && s.guid == guid && s.createtxg == r.value
    ensures r.None? <==> guid !in Guids(sender)
  {
    if sender == [] then None
    else if sender[0].guid == guid then Some(sender[0].createtxg)
    else
      assert sender == [sender[0]] + sender[1..];
      TxgOf(sender[1..], guid)
  }

  /** The first entry created after `txg`. */
  function FirstAfter(sender: seq<SnapshotEntry>, txg: nat): (r: Option<nat>)
    ensures r.Some? ==> r.value < |sender| && sender[r.value].createtxg > txg
    ensures r.Some? ==> forall k | 0 <= k < r.value :: sender[k].createtxg <= txg
    ensures r.None? ==> forall k | 0 <= k < |sender| :: sender[k].createtxg <= txg
  {
    if sender == [] then None
    else if sender[0].createtxg > txg then Some(0)
    else
      match FirstAfter(sender[1..], txg)
      case None => None
      case Some(i) => Some(i + 1)
  }

  /** The youngest bookmark the receiver shares; the later one on a tie. */
  function BestBookmark(bookmarks: seq<BookmarkRef>, recv: seq<nat>): (r: Option<BookmarkRef>)
    ensures r.Some? ==> r.value in bookmarks && r.value.guid in recv
    ensures r.Some? ==> forall b | b in bookmarks && b.guid in recv :: b.createtxg <= r.value.createtxg
    ensures r.None? ==> forall b | b in bookmarks :: b.guid !in recv
  {
    if bookmarks == [] then None
    else
      var last := bookmarks[|bookmarks| - 1];
      var best := BestBookmark(bookmarks[..|bookmarks| - 1], recv);
      if last.guid in recv && (best.Some? ==> best.value.createtxg <= last.createtxg) then Some(last) else best
  }

  /** Of several as young, the last listed one is taken. */
  lemma {:induction false} LaterBookmarkOnATie(bookmarks: seq<BookmarkRef>, recv: seq<nat>, i: nat)
    requires i < |bookmarks| && bookmarks[i].guid in recv
    requires forall j | 0 <= j < i && bookmarks[j].guid in recv :: bookmarks[j].createtxg <= bookmarks[i].createtxg
    requires forall j | i < j < |bookmarks| && bookmarks[j].guid in recv ::
               bookmarks[j].createtxg < bookmarks[i].createtxg
    ensures BestBookmark(bookmarks, recv) == Some(bookmarks[i])
  {
    var init := bookmarks[..|bookmarks| - 1];
    if i < |init| {
      LaterBookmarkOnATie(init, recv, i);
    } else if BestBookmark(init, recv).Some? {
      assert BestBookmark(init, recv).value in init;
    }
  }

  // ----------------------------------------------------------------- planner

  function PickPlanWithDiscard(sender: seq<SnapshotEntry>, receiver: seq<nat>, discard: bool, mode: ReplicateMode)
    : SnapshotPlan
  {
    if sender == [] then Nothing
    else
      var latest := sender[|sender| - 1];
      var fullTarget := if mode == All then sender[0] else latest;
      if receiver == [] then Full(SnapRef(fullTarget), discard)
      else
        match LastCommon(sender, receiver)
        case None => Full(SnapRef(fullTarget), discard)
        case Some(i) =>
          if sender[i].guid == latest.guid then Nothing
          else if mode == All && i + 2 < |sender| then
            IncrementalAll(SnapRef(sender[i]), SnapRef(latest), discard)
          else
            Incremental(SnapRef(sender[i]), SnapRef(latest), discard)
  }

  function ApplyBookmarkFallback(plan: SnapshotPlan, sender: seq<SnapshotEntry>, receiver: seq<nat>,
                                 bookmarks: seq<BookmarkRef>, mode: ReplicateMode): SnapshotPlan
  {
    if receiver == [] || !(plan.Full? || plan.Incremental? || plan.IncrementalAll?) then plan
    else
      var baseTxg := if plan.Full? then None else TxgOf(sender, plan.from.guid);
      match BestBookmark(bookmarks, receiver)
      case None => plan
      case Some(b) =>
        if baseTxg.Some? && b.createtxg <= baseTxg.value then plan
        else
          var next := if mode == All then FirstAfter(sender, b.createtxg) else None;
          if mode == All && next.None? then Nothing
          else
            var to := if mode == All then SnapRef(sender[next.value]) else plan.to;
            if b.guid == to.guid then Nothing
            else IncrementalFromBookmark(SnapshotRef(b.leaf, b.guid), to, plan.discard)
  }

  /** A token names an interrupted stream the sender can still continue. */
  predicate TokenLive(sender: seq<SnapshotEntry>, bookmarks: seq<BookmarkRef>, decoded: ResumeToken) {
    && decoded.toGuid in Guids(sender)
    && (decoded.fromGuid.Some? ==>
          decoded.fromGuid.value in Guids(sender) || decoded.fromGuid.value in BookmarkGuids(bookmarks))
  }

  function PickPlanWithToken(sender: seq<SnapshotEntry>, receiver: seq<nat>, token: Option<string>,
                             decoded: Option<ResumeToken>, bookmarks: seq<BookmarkRef>, mode: ReplicateMode)
    : SnapshotPlan
  {
    if token.None? || decoded.None? then PickPlanWithDiscard(sender, receiver, false, mode)
    else if TokenLive(sender, bookmarks, decoded.value) then Resume(token.value, decoded.value)
    else PickPlanWithDiscard(sender, receiver, true, mode)
  }

  /** The plan before the bookmark fallback. A token that does not decode is
      stale: plan afresh and ask for the partial state to be discarded. */
  function PickForReply(inp: Inputs): SnapshotPlan {
    if inp.token.Some? && inp.decoded.None? then PickPlanWithDiscard(inp.sender, inp.receiver, true, inp.mode)
    else PickPlanWithToken(inp.sender, inp.receiver, inp.token, inp.decoded, inp.tokenBookmarks, inp.mode)
  }

  /** A failed bookmark listing keeps the snapshot-based plan. */
  function MaybeBookmarkFallback(plan: SnapshotPlan, inp: Inputs): SnapshotPlan {
    if inp.fallback.None? then plan
    else ApplyBookmarkFallback(plan, inp.sender, inp.receiver, inp.fallback.value, inp.mode)
  }

  function RejectUnreceivableFull(plan: SnapshotPlan, receiver: seq<nat>, targetExists: bool)
    : Result<SnapshotPlan, PlanError>
  {
    if !plan.Full? then Ok(plan)
    else if receiver != [] then Err(Diverged(|receiver|))
    else if targetExists then Err(Placeholder)
    else Ok(plan)
  }

  function PlanOneFilesystem(inp: Inputs): Result<SnapshotPlan, PlanError> {
    if inp.sender == [] then Ok(Nothing)
    else RejectUnreceivableFull(MaybeBookmarkFallback(PickForReply(inp), inp), inp.receiver, inp.targetExists)
  }

  // ------------------------------------------------- what the listings mean

  /** `born` gives every point of the sender dataset's history its creation
      txg; two points never share one. */
  ghost predicate History(born: map<nat, nat>) {
    forall g, h | g in born && h in born && born[g] == born[h] :: g == h
  }

  ghost predicate Sorted(sender: seq<SnapshotEntry>) {
    forall i, j | 0 <= i < j < |sender| :: sender[i].createtxg < sender[j].createtxg
  }

  ghost predicate KnownSnapshots(born: map<nat, nat>, sender: seq<SnapshotEntry>) {
    forall s | s in sender :: s.guid in born && born[s.guid] == s.createtxg
  }

  ghost predicate KnownBookmarks(born: map<nat, nat>, bookmarks: seq<BookmarkRef>) {
    forall b | b in bookmarks :: b.guid in born && born[b.guid] == b.createtxg
  }

  /** The receiver committed the points it shares with the sender in the
      order the sender created them. */
  ghost predicate Ordered(born: map<nat, nat>, receiver: seq<nat>) {
    forall i, j | 0 <= i < j < |receiver| && receiver[i] in born && receiver[j] in born ::
      born[receiver[i]] < born[receiver[j]]
  }

  /** The shape of a `GuidsReply`: snapshots and tokens only come with an
      existing dataset (`collect_receiver_snapshots`). */
  ghost predicate ReplyShape(inp: Inputs) {
    && (inp.receiver != [] ==> inp.targetExists)
    && (inp.token.Some? ==> inp.targetExists)
  }

  ghost predicate Faithful(born: map<nat, nat>, inp: Inputs) {
    && History(born)
    && Sorted(inp.sender)
    && KnownSnapshots(born, inp.sender)
    && (inp.fallback.Some? ==> KnownBookmarks(born, inp.fallback.value))
    && ReplyShape(inp)
  }

  /** A point of the sender's history both sides can name. */
  ghost predicate Common(inp: Inputs, g: nat)
    requires inp.fallback.Some?
  {
    g in inp.receiver && (g in Guids(inp.sender) || g in BookmarkGuids(inp.fallback.value))
  }

  predicate Resumes(inp: Inputs) {
    inp.token.Some? && inp.decoded.Some? && TokenLive(inp.sender, inp.tokenBookmarks, inp.decoded.value)
  }

  function Head(receiver: seq<nat>): nat
    requires receiver != []
  {
    receiver[|receiver| - 1]
  }

  /** What `zfs send | zfs recv` without `-F` demands of a delta or a full
      stream, for a receiver that holds `receiver`. */
  ghost predicate ZfsAccepts(born: map<nat, nat>, sender: seq<SnapshotEntry>, receiver: seq<nat>,
                             targetExists: bool, plan: SnapshotPlan)
    requires plan.Full? || plan.Delta()
  {
    && plan.to.guid in Guids(sender)
    && if plan.Full? then !targetExists
       else
         && receiver != []
         && plan.from.guid == Head(receiver)
         && plan.from.guid in born && plan.to.guid in born
         && born[plan.from.guid] < born[plan.to.guid]
  }

  // ------------------------------------------------------------------ lemmas

  /** A delta whose base is the newest shared snapshot, kept because no shared
      bookmark is younger. */
  ghost predicate SnapshotBased(inp: Inputs, plan: SnapshotPlan)
    requires inp.sender != [] && inp.fallback.Some?
  {
    var common := LastCommon(inp.sender, inp.receiver);
    var best := BestBookmark(inp.fallback.value, inp.receiver);
    && (plan.Incremental? || plan.IncrementalAll?)
    && common.Some? && common.value < |inp.sender| - 1
    && (plan.Incremental? && inp.mode == All ==> common.value + 2 == |inp.sender|)
    && plan.from == SnapRef(inp.sender[common.value])
    && plan.to == SnapRef(inp.sender[|inp.sender| - 1])
    && (best.Some? ==>
          var txg := TxgOf(inp.sender, plan.from.guid);
          txg.Some? && best.value.createtxg <= txg.value)
  }

  /** A delta whose base is the youngest shared bookmark, younger than any
      shared snapshot. */
  ghost predicate BookmarkBased(inp: Inputs, plan: SnapshotPlan)
    requires inp.sender != [] && inp.fallback.Some?
  {
    var common := LastCommon(inp.sender, inp.receiver);
    var best := BestBookmark(inp.fallback.value, inp.receiver);
    && plan.IncrementalFromBookmark?
    && best.Some?
    && plan.from == SnapshotRef(best.value.leaf, best.value.guid)
    && (common.Some? ==>
          var txg := TxgOf(inp.sender, inp.sender[common.value].guid);
          txg.Some? ==> txg.value < best.value.createtxg)
    && match inp.mode
       case Latest => plan.to == SnapRef(inp.sender[|inp.sender| - 1])
       case All =>
         var next := FirstAfter(inp.sender, best.value.createtxg);
         next.Some? && plan.to == SnapRef(inp.sender[next.value])
  }

  lemma DeltaShape(inp: Inputs, plan: SnapshotPlan)
    requires inp.fallback.Some? && inp.sender != [] && PlanOneFilesystem(inp) == Ok(plan) && plan.Delta()
    ensures inp.receiver != []
    ensures SnapshotBased(inp, plan) || BookmarkBased(inp, plan)
  {
    var picked := PickForReply(inp);
    assert picked == PickPlanWithDiscard(inp.sender, inp.receiver, inp.token.Some?, inp.mode);
  }

  lemma SameGuidSameTxg(born: map<nat, nat>, sender: seq<SnapshotEntry>, i: nat)
    requires KnownSnapshots(born, sender) && i < |sender|
    ensures sender[i].guid in born && TxgOf(sender, sender[i].guid) == Some(born[sender[i].guid])
    ensures born[sender[i].guid] == sender[i].createtxg
    ensures sender[i].guid in Guids(sender)
  {
    assert sender[i] in sender;
  }

  lemma SnapshotsUpToCommon(born: map<nat, nat>, inp: Inputs, g: nat)
    requires Sorted(inp.sender) && KnownSnapshots(born, inp.sender)
    requires g in Guids(inp.sender) && g in inp.receiver
    ensures g in born
    ensures LastCommon(inp.sender, inp.receiver).Some?
    ensures born[g] <= inp.sender[LastCommon(inp.sender, inp.receiver).value].createtxg
  {
    var k :| 0 <= k < |inp.sender| && inp.sender[k].guid == g;
    SameGuidSameTxg(born, inp.sender, k);
    var common := LastCommon(inp.sender, inp.receiver).value;
    assert k <= common;
  }

  lemma BookmarksUpToBest(born: map<nat, nat>, bookmarks: seq<BookmarkRef>, receiver: seq<nat>, g: nat)
    requires KnownBookmarks(born, bookmarks) && g in BookmarkGuids(bookmarks) && g in receiver
    ensures g in born
    ensures BestBookmark(bookmarks, receiver).Some?
    ensures born[g] <= BestBookmark(bookmarks, receiver).value.createtxg
  {
    var b :| b in bookmarks && b.guid == g;
  }

  /** The base of a delta is the newest point both sides can name, a bookmark
      only when no listed snapshot is that point; `to` is a listed snapshot. */
  lemma DeltaBaseIsNewestCommon(born: map<nat, nat>, inp: Inputs, plan: SnapshotPlan)
    requires Faithful(born, inp) && inp.fallback.Some?
    requires PlanOneFilesystem(inp) == Ok(plan) && plan.Delta()
    ensures Common(inp, plan.from.guid)
    ensures forall g | Common(inp, g) :: g in born && born[g] <= born[plan.from.guid]
    ensures plan.IncrementalFromBookmark? <==> plan.from.guid !in Guids(inp.sender)
    ensures plan.to.guid in Guids(inp.sender)
  {
    DeltaShape(inp, plan);
    ToIsListed(inp, plan);
    if SnapshotBased(inp, plan) {
      SameGuidSameTxg(born, inp.sender, LastCommon(inp.sender, inp.receiver).value);
      forall g | Common(inp, g)
        ensures g in born && born[g] <= born[plan.from.guid]
      {
        CommonUpToSnapshotBase(born, inp, plan, g);
      }
    } else {
      assert BookmarkBased(inp, plan);
      forall g | Common(inp, g)
        ensures g in born && born[g] <= born[plan.from.guid]
        ensures g in Guids(inp.sender) ==> born[g] < born[plan.from.guid]
      {
        CommonUpToBookmarkBase(born, inp, plan, g);
      }
    }
  }

  lemma CommonUpToSnapshotBase(born: map<nat, nat>, inp: Inputs, plan: SnapshotPlan, g: nat)
    requires Faithful(born, inp) && inp.fallback.Some? && inp.sender != []
    requires SnapshotBased(inp, plan) && Common(inp, g)
    ensures plan.from.guid in born && g in born && born[g] <= born[plan.from.guid]
  {
    SameGuidSameTxg(born, inp.sender, LastCommon(inp.sender, inp.receiver).value);
    if g in Guids(inp.sender) {
      SnapshotsUpToCommon(born, inp, g);
    } else {
      BookmarksUpToBest(born, inp.fallback.value, inp.receiver, g);
    }
  }

  lemma CommonUpToBookmarkBase(born: map<nat, nat>, inp: Inputs, plan: SnapshotPlan, g: nat)
    requires Faithful(born, inp) && inp.fallback.Some? && inp.sender != []
    requires BookmarkBased(inp, plan) && Common(inp, g)
    ensures plan.from.guid in born && g in born && born[g] <= born[plan.from.guid]
    ensures g in Guids(inp.sender) ==> born[g] < born[plan.from.guid]
  {
    if g in Guids(inp.sender) {
      SnapshotsUpToCommon(born, inp, g);
      SameGuidSameTxg(born, inp.sender, LastCommon(inp.sender, inp.receiver).value);
    } else {
      BookmarksUpToBest(born, inp.fallback.value, inp.receiver, g);
    }
  }

  /** In `all` mode a delta always moves forward. In `latest` mode it does so
      exactly when the newest listed snapshot is younger than every bookmark
      the receiver shares. */
  lemma DeltaMovesForward(born: map<nat, nat>, inp: Inputs, plan: SnapshotPlan)
    requires Faithful(born, inp) && inp.fallback.Some?
    requires PlanOneFilesystem(inp) == Ok(plan) && plan.Delta()
    ensures plan.from.guid in born && plan.to.guid in born
    ensures inp.mode == All ==> born[plan.from.guid] < born[plan.to.guid]
    ensures inp.mode == Latest ==>
              (born[plan.from.guid] < born[plan.to.guid] <==> HeadBeatsBookmarks(inp))
  {
    DeltaShape(inp, plan);
    SameGuidSameTxg(born, inp.sender, |inp.sender| - 1);
    if SnapshotBased(inp, plan) {
      SameGuidSameTxg(born, inp.sender, LastCommon(inp.sender, inp.receiver).value);
    } else if inp.mode == All {
      var b := BestBookmark(inp.fallback.value, inp.receiver).value;
      SameGuidSameTxg(born, inp.sender, FirstAfter(inp.sender, b.createtxg).value);
    }
  }

  /** The newest listed snapshot is younger than every bookmark whose GUID the
      receiver holds. */
  predicate HeadBeatsBookmarks(inp: Inputs)
    requires inp.sender != [] && inp.fallback.Some?
  {
    forall b | b in inp.fallback.value && b.guid in inp.receiver ::
      b.createtxg < inp.sender[|inp.sender| - 1].createtxg
  }

  /** Main result: when the sender can name the receiver's newest snapshot, a
      delta is one `zfs recv` accepts, in `latest` mode exactly under
      `HeadBeatsBookmarks`. */
  lemma EmittedDeltaIsReceivable(born: map<nat, nat>, inp: Inputs, plan: SnapshotPlan)
    requires Faithful(born, inp) && inp.fallback.Some? && Ordered(born, inp.receiver)
    requires PlanOneFilesystem(inp) == Ok(plan) && plan.Delta()
    requires inp.receiver != [] && Common(inp, Head(inp.receiver))
    ensures plan.from.guid == Head(inp.receiver)
    ensures ZfsAccepts(born, inp.sender, inp.receiver, inp.targetExists, plan)
            <==> (inp.mode == All || HeadBeatsBookmarks(inp))
  {
    DeltaBaseIsNewestCommon(born, inp, plan);
    DeltaMovesForward(born, inp, plan);
    var k :| 0 <= k < |inp.receiver| && inp.receiver[k] == plan.from.guid;
    assert Common(inp, inp.receiver[k]);
  }

  /** The `latest` condition is needed: with the newest listed snapshot pruned
      away the step from the cursor runs backwards, and `zfs` refuses it. */
  lemma LatestBookmarkStepCanRunBackwards()
    ensures
      var born := map[1 := 10, 2 := 20, 3 := 30];
      var inp := Inputs([SnapshotEntry("a", 1, 10), SnapshotEntry("b", 2, 20)], [1, 3], true, None, None, [],
                        Some([BookmarkRef("cursor", 3, 30)]), Latest);
      && Faithful(born, inp) && Ordered(born, inp.receiver) && Common(inp, Head(inp.receiver))
      && PlanOneFilesystem(inp).Ok? && PlanOneFilesystem(inp).value.Delta()
      && !ZfsAccepts(born, inp.sender, inp.receiver, true, PlanOneFilesystem(inp).value)
  {
    var a, b := SnapshotEntry("a", 1, 10), SnapshotEntry("b", 2, 20);
    var c := BookmarkRef("cursor", 3, 30);
    var inp := Inputs([a, b], [1, 3], true, None, None, [], Some([c]), Latest);
    var born := map[1 := 10, 2 := 20, 3 := 30];
    assert c in [c];
    assert inp.sender[..1] == [a];
    assert LastCommon([a], [1, 3]) == Some(0);
    assert LastCommon([a, b], [1, 3]) == Some(0);
    assert a in [a, b];
    assert BestBookmark([c][..0], [1, 3]) == None;
    assert BestBookmark([c], [1, 3]) == Some(c);
    assert PlanOneFilesystem(inp) == Ok(IncrementalFromBookmark(SnapshotRef("cursor", 3), SnapRef(b), false));
    DeltaBaseIsNewestCommon(born, inp, PlanOneFilesystem(inp).value);
  }

  /** Only `all` mode sends intermediates, whatever the fallback does. There a
      delta over a snapshot carries them exactly when some listed snapshot lies
      strictly between its ends. */
  lemma IntermediatesIff(born: map<nat, nat>, inp: Inputs, plan: SnapshotPlan)
    requires Sorted(inp.sender) && KnownSnapshots(born, inp.sender)
    requires PlanOneFilesystem(inp) == Ok(plan) && (plan.Incremental? || plan.IncrementalAll?)
    ensures inp.mode == Latest ==> plan.Incremental?
    ensures plan.from.guid in born && plan.to.guid in born
    ensures inp.mode == All ==>
              (plan.IncrementalAll? <==>
               exists s :: s in inp.sender && born[plan.from.guid] < s.createtxg < born[plan.to.guid])
  {
    PickedDelta(inp, plan);
    EndsOfPicked(born, inp.sender, LastCommon(inp.sender, inp.receiver).value);
  }

  lemma EndsOfPicked(born: map<nat, nat>, sender: seq<SnapshotEntry>, i: nat)
    requires Sorted(sender) && KnownSnapshots(born, sender) && i < |sender| - 1
    ensures
      var from, to := sender[i].guid, sender[|sender| - 1].guid;
      && from in born && to in born
      && (i + 2 < |sender| <==> exists s :: s in sender && born[from] < s.createtxg < born[to])
  {
    SameGuidSameTxg(born, sender, i);
    SameGuidSameTxg(born, sender, |sender| - 1);
    SomethingBetweenIff(sender, i);
  }

  lemma SomethingBetweenIff(sender: seq<SnapshotEntry>, i: nat)
    requires Sorted(sender) && i < |sender| - 1
    ensures i + 2 < |sender| <==>
            exists s :: s in sender && sender[i].createtxg < s.createtxg < sender[|sender| - 1].createtxg
  {
    if i + 2 < |sender| {
      assert sender[i + 1] in sender;
    }
  }

  /** A snapshot-based delta is one the picker made: from the last common
      snapshot to the newest listed one. */
  lemma PickedDelta(inp: Inputs, plan: SnapshotPlan)
    requires PlanOneFilesystem(inp) == Ok(plan) && (plan.Incremental? || plan.IncrementalAll?)
    ensures inp.sender != [] && LastCommon(inp.sender, inp.receiver).Some?
    ensures
      var i, n := LastCommon(inp.sender, inp.receiver).value, |inp.sender|;
      && i < n - 1 && plan.from == SnapRef(inp.sender[i]) && plan.to == SnapRef(inp.sender[n - 1])
      && (plan.IncrementalAll? <==> inp.mode == All && i + 2 < n)
  {
    assert plan == PickPlanWithDiscard(inp.sender, inp.receiver, inp.token.Some?, inp.mode);
  }

  /** In `latest` mode every stream ends at the newest listed snapshot. */
  lemma LatestEndsAtNewest(inp: Inputs, plan: SnapshotPlan)
    requires PlanOneFilesystem(inp) == Ok(plan) && inp.mode == Latest && (plan.Full? || plan.Delta())
    ensures inp.sender != [] && plan.to == SnapRef(inp.sender[|inp.sender| - 1])
    ensures !plan.IncrementalAll?
  {
    var picked := PickForReply(inp);
    assert picked == PickPlanWithDiscard(inp.sender, inp.receiver, inp.token.Some?, inp.mode);
  }

  /** A full stream is planned exactly for a target that does not exist. */
  lemma FullIffTargetAbsent(inp: Inputs)
    requires ReplyShape(inp) && inp.sender != []
    ensures (PlanOneFilesystem(inp).Ok? && PlanOneFilesystem(inp).value.Full?) <==> !inp.targetExists
    ensures !inp.targetExists ==> !PlanOneFilesystem(inp).value.discard
    ensures !inp.targetExists ==>
              PlanOneFilesystem(inp).value.to
              == SnapRef(inp.sender[if inp.mode == All then 0 else |inp.sender| - 1])
  {
  }

  /** A target without snapshots is resumed or refused, never sent in full: in
      particular a stale token left by an interrupted first sync ends in
      `Placeholder`, so its partial state is never discarded. */
  lemma SnapshotlessTarget(inp: Inputs)
    requires inp.sender != [] && inp.receiver == [] && inp.targetExists
    ensures PlanOneFilesystem(inp) ==
            if Resumes(inp) then Ok(Resume(inp.token.value, inp.decoded.value)) else Err(Placeholder)
  {
  }

  /** With both listings read, divergence is reported exactly when nothing is
      resumable and no point of the sender's history is shared. */
  lemma DivergedIffNothingShared(inp: Inputs)
    requires inp.sender != [] && inp.receiver != [] && inp.fallback.Some?
    ensures PlanOneFilesystem(inp).Err? <==> !Resumes(inp) && forall g :: !Common(inp, g)
    ensures PlanOneFilesystem(inp).Err? ==> PlanOneFilesystem(inp).error == Diverged(|inp.receiver|)
  {
    var common := LastCommon(inp.sender, inp.receiver);
    var best := BestBookmark(inp.fallback.value, inp.receiver);
    if common.Some? {
      assert inp.sender[common.value] in inp.sender;
      assert Common(inp, inp.sender[common.value].guid);
    }
    if best.Some? {
      assert Common(inp, best.value.guid);
    }
    forall g | Common(inp, g)
      ensures common.Some? || best.Some?
    {
      if g in Guids(inp.sender) {
        var s :| s in inp.sender && s.guid == g;
      }
    }
  }

  /** "Nothing to do" is said only when the receiver holds the newest listed
      snapshot, or a shared bookmark is at least as young as all of them. */
  lemma NothingMeansCaughtUp(born: map<nat, nat>, inp: Inputs)
    requires Faithful(born, inp) && inp.sender != []
    requires PlanOneFilesystem(inp) == Ok(Nothing)
    ensures
      || inp.sender[|inp.sender| - 1].guid in inp.receiver
      || (&& inp.mode == All && inp.fallback.Some?
          && exists b :: b in inp.fallback.value && b.guid in inp.receiver
                         && forall s | s in inp.sender :: s.createtxg <= b.createtxg)
  {
    var common := LastCommon(inp.sender, inp.receiver);
    var last := inp.sender[|inp.sender| - 1];
    assert last in inp.sender;
    var picked := PickForReply(inp);
    if !picked.Nothing? && last.guid !in inp.receiver {
      var b := BestBookmark(inp.fallback.value, inp.receiver).value;
      if inp.mode == All {
        assert FirstAfter(inp.sender, b.createtxg).None?;
        assert b in inp.fallback.value && b.guid in inp.receiver;
      }
    }
  }

  lemma HeadIsNewest(born: map<nat, nat>, receiver: seq<nat>, g: nat)
    requires Ordered(born, receiver) && g in receiver && g in born && receiver != []
    requires Head(receiver) in born
    ensures born[g] <= born[Head(receiver)]
  {
    var k :| 0 <= k < |receiver| && receiver[k] == g;
  }

  lemma ListedHeadIsLastCommon(born: map<nat, nat>, sender: seq<SnapshotEntry>, receiver: seq<nat>)
    requires Sorted(sender) && KnownSnapshots(born, sender) && Ordered(born, receiver)
    requires receiver != [] && Head(receiver) in Guids(sender)
    ensures Head(receiver) in born
    ensures LastCommon(sender, receiver).Some?
    ensures sender[LastCommon(sender, receiver).value].guid == Head(receiver)
  {
    var h := Head(receiver);
    var k :| 0 <= k < |sender| && sender[k].guid == h;
    SameGuidSameTxg(born, sender, k);
    var i := LastCommon(sender, receiver).value;
    SameGuidSameTxg(born, sender, i);
    HeadIsNewest(born, receiver, sender[i].guid);
  }

  lemma NoYoungerBookmark(plan: SnapshotPlan, sender: seq<SnapshotEntry>, receiver: seq<nat>,
                          bookmarks: seq<BookmarkRef>, mode: ReplicateMode, txg: nat)
    requires plan.Nothing? || ((plan.Incremental? || plan.IncrementalAll?) && TxgOf(sender, plan.from.guid) == Some(txg))
    requires forall b | b in bookmarks && b.guid in receiver :: b.createtxg <= txg
    ensures ApplyBookmarkFallback(plan, sender, receiver, bookmarks, mode) == plan
  {
  }

  lemma BookmarksUpToHead(born: map<nat, nat>, receiver: seq<nat>, bookmarks: seq<BookmarkRef>)
    requires Ordered(born, receiver) && KnownBookmarks(born, bookmarks) && receiver != [] && Head(receiver) in born
    ensures forall b | b in bookmarks && b.guid in receiver :: b.createtxg <= born[Head(receiver)]
  {
    forall b | b in bookmarks && b.guid in receiver
      ensures b.createtxg <= born[Head(receiver)]
    {
      HeadIsNewest(born, receiver, b.guid);
    }
  }

  lemma PickFromHead(sender: seq<SnapshotEntry>, receiver: seq<nat>, discard: bool, mode: ReplicateMode)
    requires receiver != [] && LastCommon(sender, receiver).Some?
    requires sender[LastCommon(sender, receiver).value].guid == Head(receiver)
    ensures var plan := PickPlanWithDiscard(sender, receiver, discard, mode);
            plan.Nothing? || ((plan.Incremental? || plan.IncrementalAll?) && plan.from.guid == Head(receiver))
  {
  }

  /** Whatever the fallback does, a plan over a listed head starts from it. */
  lemma FallbackKeepsListedHead(born: map<nat, nat>, inp: Inputs, plan: SnapshotPlan)
    requires Sorted(inp.sender) && KnownSnapshots(born, inp.sender) && Ordered(born, inp.receiver)
    requires inp.fallback.Some? ==> KnownBookmarks(born, inp.fallback.value)
    requires inp.receiver != [] && Head(inp.receiver) in Guids(inp.sender)
    requires plan == PickPlanWithDiscard(inp.sender, inp.receiver, inp.token.Some?, inp.mode)
    ensures MaybeBookmarkFallback(plan, inp) == plan
    ensures plan.Nothing? || ((plan.Incremental? || plan.IncrementalAll?) && plan.from.guid == Head(inp.receiver))
  {
    ListedHeadIsLastCommon(born, inp.sender, inp.receiver);
    var i := LastCommon(inp.sender, inp.receiver).value;
    SameGuidSameTxg(born, inp.sender, i);
    PickFromHead(inp.sender, inp.receiver, inp.token.Some?, inp.mode);
    if inp.fallback.Some? {
      BookmarksUpToHead(born, inp.receiver, inp.fallback.value);
      NoYoungerBookmark(plan, inp.sender, inp.receiver, inp.fallback.value, inp.mode, born[Head(inp.receiver)]);
    }
  }

  // ------------------------------------------------------- resume or discard

  /** The stream is resumed exactly when the token decodes and both of its
      ends are still there, `to` as a listed snapshot and the base as one or as
      a bookmark; otherwise a sent plan carries the discard flag exactly when
      the receiver reported a token, whatever the fallback did. */
  lemma ResumeOrDiscardIsExact(inp: Inputs, plan: SnapshotPlan)
    requires PlanOneFilesystem(inp) == Ok(plan) && inp.sender != []
    ensures plan.Resume? <==> Resumes(inp)
    ensures plan.Resume? <==>
            && inp.token.Some? && inp.decoded.Some?
            && (exists s :: s in inp.sender && s.guid == inp.decoded.value.toGuid)
            && (inp.decoded.value.fromGuid.Some? ==>
                  || (exists s :: s in inp.sender && s.guid == inp.decoded.value.fromGuid.value)
                  || (exists b :: b in inp.tokenBookmarks && b.guid == inp.decoded.value.fromGuid.value))
    ensures plan.Resume? ==> plan == Resume(inp.token.value, inp.decoded.value)
    ensures plan.Full? || plan.Delta() ==> (plan.discard <==> inp.token.Some?)
  {
  }

  datatype SendKind = KindFull | KindIncremental | KindResume

  /** The job's send flags, as configured and as announced on the wire. */
  datatype SendFlags = SendFlags(raw: bool, embedded: bool, compressed: bool, largeBlocks: bool)

  datatype SendHeader = SendHeader(
    sendKind: SendKind, fromSnap: Option<SnapshotRef>, toSnap: SnapshotRef, flags: SendFlags, discardPartialRecv: bool)

  /** `split_once`, keeping what follows the separator, or everything. */
  function LeafAfter(name: string, sep: char): (leaf: string)
    ensures sep in name ==>
              exists i :: 0 <= i < |name| && name[i] == sep && sep !in name[..i] && leaf == name[i + 1..]
    ensures sep !in name ==> leaf == name
  {
    if name == [] then name
    else if name[0] == sep then
      assert name[0] == sep && sep !in name[..0];
      name[1..]
    else
      assert name == [name[0]] + name[1..];
      var rest := LeafAfter(name[1..], sep);
      assert sep in name[1..] ==>
          exists i :: 0 <= i < |name| && name[i] == sep && sep !in name[..i] && rest == name[i + 1..] by {
        if sep in name[1..] {
          var i :| 0 <= i < |name| - 1 && name[1..][i] == sep && sep !in name[1..][..i] && rest == name[1..][i + 1..];
          assert name[..i + 1] == [name[0]] + name[1..][..i];
          assert name[i + 1] == sep && name[1..][i + 1..] == name[i + 2..];
        }
      }
      if sep in name[1..] then rest else name
  }

  function BuildSendHeader(plan: SnapshotPlan, flags: SendFlags): Option<SendHeader> {
    match plan
    case Nothing => None
    case Full(to, discard) => Some(SendHeader(KindFull, None, to, flags, discard))
    case Incremental(from, to, discard) => Some(SendHeader(KindIncremental, Some(from), to, flags, discard))
    case IncrementalAll(from, to, discard) => Some(SendHeader(KindIncremental, Some(from), to, flags, discard))
    case IncrementalFromBookmark(from, to, discard) =>
      Some(SendHeader(KindIncremental, Some(from), to, flags, discard))
    case Resume(_, decoded) =>
      Some(SendHeader(KindResume, None, SnapshotRef(LeafAfter(decoded.toName, '@'), decoded.toGuid), flags, false))
  }

  datatype SendArgs =
    | ResumeArgs(token: string)
    | StreamArgs(target: string, base: Option<string>, intermediates: bool,
                 raw: bool, embedded: bool, compressed: bool, largeBlocks: bool)

  /** `SendArgs::new` and the builder calls for the flags. */
  function FlaggedArgs(target: string, flags: SendFlags): (args: SendArgs)
    ensures args.StreamArgs?
  {
    var args := StreamArgs(target, None, false, false, false, false, false);
    var args := if flags.raw then args.(raw := true) else args;
    var args := if flags.embedded then args.(embedded := true) else args;
    var args := if flags.compressed then args.(compressed := true) else args;
    if flags.largeBlocks then args.(largeBlocks := true) else args
  }

  function BuildSendArgs(plan: SnapshotPlan, dataset: string, flags: SendFlags): Option<SendArgs> {
    if plan.Resume? then Some(ResumeArgs(plan.token))
    else if plan.Nothing? then None
    else
      var args := FlaggedArgs(dataset + "@" + plan.to.name, flags);
      if plan.Incremental? then Some(args.(base := Some(dataset + "@" + plan.from.name)))
      else if plan.IncrementalAll? then Some(args.(base := Some(dataset + "@" + plan.from.name), intermediates := true))
      else if plan.IncrementalFromBookmark? then Some(args.(base := Some(dataset + "#" + plan.from.name)))
      else Some(args)
  }

  /** The wire header carries the planner's decision unchanged: the discard
      flag is on it exactly when the receiver reported a token and the stream
      is not a resume. */
  lemma HeaderCarriesTheDecision(inp: Inputs, plan: SnapshotPlan, flags: SendFlags)
    requires PlanOneFilesystem(inp) == Ok(plan) && inp.sender != []
    ensures BuildSendHeader(plan, flags).None? <==> plan.Nothing?
    ensures !plan.Nothing? ==>
              var h := BuildSendHeader(plan, flags).value;
              && (h.sendKind == KindResume <==> Resumes(inp))
              && (h.discardPartialRecv <==> inp.token.Some? && !Resumes(inp))
              && h.toSnap.guid in Guids(inp.sender)
  {
    ResumeOrDiscardIsExact(inp, plan);
    if plan.Full? || plan.Delta() {
      ToIsListed(inp, plan);
    }
  }

  lemma ToIsListed(inp: Inputs, plan: SnapshotPlan)
    requires PlanOneFilesystem(inp) == Ok(plan) && inp.sender != [] && (plan.Full? || plan.Delta())
    ensures plan.to.guid in Guids(inp.sender)
  {
    assert inp.sender[0] in inp.sender && inp.sender[|inp.sender| - 1] in inp.sender;
    if plan.IncrementalFromBookmark? && inp.mode == All {
      var b := BestBookmark(inp.fallback.value, inp.receiver).value;
      assert inp.sender[FirstAfter(inp.sender, b.createtxg).value] in inp.sender;
    }
  }

  /** The argv and the header tell the same story. Reading the leaf back out of
      the `zfs send` target gives the header's `to`, and the base's leaf its
      `from`; a bookmark base is the only one written with `#`, and only `-I`
      takes intermediates. A resume sends the planned token, and its header
      names the snapshot in the token. The flags are the same on both, except
      that a resume's argv has none: the token carries them. */
  lemma ArgsAndHeaderAgree(plan: SnapshotPlan, dataset: string, flags: SendFlags)
    requires '@' !in dataset && !plan.Nothing?
    ensures BuildSendArgs(plan, dataset, flags).Some? && BuildSendHeader(plan, flags).Some?
    ensures
      var args, header := BuildSendArgs(plan, dataset, flags).value, BuildSendHeader(plan, flags).value;
      && header.flags == flags
      && (args.ResumeArgs? <==> header.sendKind == KindResume)
      && (args.ResumeArgs? ==>
            && plan.Resume? && args.token == plan.token && header.fromSnap.None? && !header.discardPartialRecv
            && header.toSnap.guid == plan.decoded.toGuid
            && forall leaf | plan.decoded.toName == dataset + "@" + leaf :: header.toSnap.name == leaf)
      && (args.StreamArgs? ==>
            && LeafAfter(args.target, '@') == header.toSnap.name
            && SendFlags(args.raw, args.embedded, args.compressed, args.largeBlocks) == header.flags
            && (args.intermediates <==> plan.IncrementalAll?)
            && (args.base.None? <==> header.fromSnap.None?)
            && (args.base.None? <==> header.sendKind == KindFull))
      && (args.StreamArgs? && args.base.Some? ==>
            Splits(args.base.value, dataset, if plan.IncrementalFromBookmark? then '#' else '@', header.fromSnap.value.name))
  {
    if plan.Resume? {
      forall leaf | plan.decoded.toName == dataset + "@" + leaf
        ensures LeafAfter(plan.decoded.toName, '@') == leaf
      {
        LeafOfFullName(dataset, leaf);
      }
    } else {
      LeafOfFullName(dataset, plan.to.name);
    }
    if plan.Delta() {
      FullNameSplits(dataset, if plan.IncrementalFromBookmark? then '#' else '@', plan.from.name);
    }
  }

  predicate Splits(name: string, dataset: string, mark: char, leaf: string) {
    |name| > |dataset| && name[..|dataset|] == dataset && name[|dataset|] == mark && name[|dataset| + 1..] == leaf
  }

  lemma FullNameSplits(dataset: string, mark: char, leaf: string)
    ensures Splits(dataset + [mark] + leaf, dataset, mark, leaf)
  {
  }

  lemma {:induction false} LeafOfFullName(dataset: string, leaf: string)
    requires '@' !in dataset
    ensures LeafAfter(dataset + "@" + leaf, '@') == leaf
  {
    var name := dataset + "@" + leaf;
    if dataset == [] {
      assert name[1..] == leaf;
    } else {
      assert name[1..] == dataset[1..] + "@" + leaf;
      assert name[1..][|dataset| - 1] == '@';
      LeafOfFullName(dataset[1..], leaf);
    }
  }
}
