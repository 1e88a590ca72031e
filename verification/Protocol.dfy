/**
 The push protocol for one (dataset, job, peer) as a step system: the planner's
 three listings, the executor of `daemon/src/jobs/push/step.rs` with the holds
 and the cursor of `holds.rs`, the receive channel of
 `daemon/src/stdinserver/recv.rs`, and everything that runs beside them.

 One event is one ZFS call or one action of the surroundings, so a run may stop
 between any two calls. Snapshots are identified by GUID.
 */
module Protocol {
  import opened Wrappers
  import opened Plan
  import Names

  datatype Config = Config(job: string, peer: string, mode: ReplicateMode)

  /** An incoming stream: the snapshots it carries up to `to`, over `base`. */
  datatype Stream = Stream(base: Option<nat>, via: seq<nat>, to: nat)

  /** The receive process: it ingests, hands the last-received tag over, and
      only then answers. `held`: the landed snapshot got the tag; if not, no other
      tag is released either. */
  datatype Channel = NoChannel | Ingesting(stream: Stream) | HandingOver(landed: nat, held: bool)

  /** State a broken `zfs recv -s` leaves behind, named by its token. */
  datatype Partial = Partial(token: string, base: Option<nat>, to: nat)

  /** The receive lock is held while a stream is ingested, not while the tag is
      handed over. `late` are the snapshots of earlier processes that were still
      handing over when the next stream was admitted. */
  datatype Receiver = Receiver(
    snaps: seq<nat>, present: bool, tagged: set<nat>, partial: Option<Partial>, channel: Channel, late: set<nat>)

  datatype Phase =
    | Idle
    | Listed(list: seq<SnapshotEntry>)
    | Replied(list: seq<SnapshotEntry>, inp: Inputs)
    | Planned(list: seq<SnapshotEntry>, plan: SnapshotPlan)
    | Placing(list: seq<SnapshotEntry>, plan: SnapshotPlan, todo: seq<nat>)
    | Sweeping(list: seq<SnapshotEntry>, plan: SnapshotPlan, stale: set<nat>)
    | Streaming(list: seq<SnapshotEntry>, to: nat, answered: bool)
    | Sent(list: seq<SnapshotEntry>, to: nat)
    | DroppingCursors(list: seq<SnapshotEntry>, to: nat, leaves: set<string>)
    | Releasing(stale: set<nat>)

  /** `born` and `matching` are the dataset's history: the creation txg of every
      snapshot there ever was, and which of them the job's filter accepts.
      `seen` adds the GUIDs the receiver had before. `received` says whether a
      stream of this pair has ever landed. */
  datatype State = State(
    born: map<nat, nat>, matching: set<nat>, seen: set<nat>,
    snaps: seq<SnapshotEntry>, bookmarks: seq<BookmarkRef>, stepHeld: set<nat>,
    recv: Receiver, phase: Phase, received: bool)

  datatype Event =
    // the surroundings
    | TakeSnapshot(entry: SnapshotEntry, matches: bool)
    | SenderDestroys(index: nat)
    | ForeignBookmark(bookmark: BookmarkRef)
    | ForeignBookmarkGone(index: nat)
    | ReceiverDestroys(index: nat)
    | GiveUp
    // the receive process
    | Land(held: bool)
    | Interrupt(left: Option<string>, landed: nat)
    | ReleaseTag(guid: nat)
    | Answer
    | ChannelDies
    | LateReleaseTag(landed: nat, guid: nat)
    | LateEnds(landed: nat)
    // the sender's step
    | ListSender
    | ListReceiver(tokenSeen: bool)
    | Decide(decodes: bool, tokenBookmarks: seq<BookmarkRef>, fallbackRead: bool)
    | Prepare
    | Place
    | ListHolds(ok: bool)
    | Release(guid: nat, ok: bool)
    | OpenRecv
    | SeeAnswer
    | CreateCursor(ok: bool, taken: bool, listed: bool)
    | DropCursor(leaf: string, ok: bool)
    | ListTags(ok: bool)
    | Finish

  // ------------------------------------------------------------ small pieces

  function RemoveAt<T>(s: seq<T>, i: nat): (r: seq<T>)
    requires i < |s|
    ensures forall x | x in s && x != s[i] :: x in r
    ensures forall x | x in r :: x in s
  {
    assert forall x | x in s && x != s[i] :: x in s[..i] || x in s[i + 1..] by {
      forall x | x in s && x != s[i]
        ensures x in s[..i] || x in s[i + 1..]
      {
        var k :| 0 <= k < |s| && s[k] == x;
        assert k < i ==> s[..i][k] == x;
        assert k > i ==> s[i + 1..][k - i - 1] == x;
      }
    }
    s[..i] + s[i + 1..]
  }

  /** The listing a planner starts from: the snapshots the filter accepts. */
  function Select(snaps: seq<SnapshotEntry>, matching: set<nat>): (r: seq<SnapshotEntry>)
    ensures forall s | s in r :: s in snaps && s.guid in matching
    ensures forall s | s in snaps && s.guid in matching :: s in r
    ensures Sorted(snaps) ==> Sorted(r)
  {
    if snaps == [] then []
    else
      var last := snaps[|snaps| - 1];
      assert snaps == snaps[..|snaps| - 1] + [last];
      var rest := Select(snaps[..|snaps| - 1], matching);
      if last.guid in matching then rest + [last] else rest
  }

  function BaseGuid(plan: SnapshotPlan): Option<nat> {
    if plan.Delta() then Some(plan.from.guid)
    else if plan.Resume? then plan.decoded.fromGuid
    else None
  }

  function ToGuid(plan: SnapshotPlan): nat
    requires !plan.Nothing?
  {
    if plan.Resume? then plan.decoded.toGuid else plan.to.guid
  }

  /** The snapshots a step holds: a snapshot base if it has one, then `to`. */
  function HoldTargets(list: seq<SnapshotEntry>, plan: SnapshotPlan): seq<nat>
    requires !plan.Nothing?
  {
    var base :=
      if plan.Incremental? || plan.IncrementalAll? then [plan.from.guid]
      else if plan.Resume? && plan.decoded.fromGuid.Some? && plan.decoded.fromGuid.value in Guids(list) then
        [plan.decoded.fromGuid.value]
      else [];
    base + [ToGuid(plan)]
  }

  function Keep(list: seq<SnapshotEntry>, plan: SnapshotPlan): set<nat>
    requires !plan.Nothing?
  {
    set g | g in HoldTargets(list, plan)
  }

  predicate Own(c: Config, b: BookmarkRef) {
    Names.IsCursorLeaf(b.leaf, c.job, c.peer)
  }

  ghost predicate HasCursor(c: Config, bookmarks: seq<BookmarkRef>, g: nat) {
    exists b :: b in bookmarks && b.guid == g && Own(c, b)
  }

  function DropLeaf(bookmarks: seq<BookmarkRef>, leaf: string): (r: seq<BookmarkRef>)
    ensures forall b :: b in r <==> b in bookmarks && b.leaf != leaf
  {
    if bookmarks == [] then []
    else
      var last := bookmarks[|bookmarks| - 1];
      assert bookmarks == bookmarks[..|bookmarks| - 1] + [last];
      var rest := DropLeaf(bookmarks[..|bookmarks| - 1], leaf);
      if last.leaf == leaf then rest else rest + [last]
  }

  function StaleLeaves(c: Config, bookmarks: seq<BookmarkRef>, cursor: string): set<string> {
    set b | b in bookmarks && b.leaf != cursor && Own(c, b) :: b.leaf
  }

  /** The snapshots between the two ends, filtered or not: what `-I` adds. */
  function Between(born: map<nat, nat>, snaps: seq<SnapshotEntry>, plan: SnapshotPlan): seq<nat> {
    if plan.IncrementalAll? && plan.from.guid in born && plan.to.guid in born
    then GuidsBetween(snaps, born[plan.from.guid], born[plan.to.guid])
    else []
  }

  function GuidsBetween(snaps: seq<SnapshotEntry>, lo: nat, hi: nat): seq<nat> {
    if snaps == [] then []
    else
      var last := snaps[|snaps| - 1];
      var rest := GuidsBetween(snaps[..|snaps| - 1], lo, hi);
      if lo < last.createtxg < hi then rest + [last.guid] else rest
  }

  lemma {:induction false} BetweenIsInside(born: map<nat, nat>, snaps: seq<SnapshotEntry>, lo: nat, hi: nat, g: nat)
    requires KnownSnapshots(born, snaps) && g in GuidsBetween(snaps, lo, hi)
    ensures g in born && lo < born[g] < hi
    ensures exists s :: s in snaps && s.guid == g && s.createtxg == born[g]
  {
    var init, last := snaps[..|snaps| - 1], snaps[|snaps| - 1];
    assert snaps == init + [last];
    if g in GuidsBetween(init, lo, hi) {
      BetweenIsInside(born, init, lo, hi, g);
      var s :| s in init && s.guid == g && s.createtxg == born[g];
      assert s in snaps;
    } else {
      assert last in snaps && last.guid == g;
    }
  }

  lemma {:induction false} BetweenInOrder(born: map<nat, nat>, snaps: seq<SnapshotEntry>, lo: nat, hi: nat,
                                          i: nat, j: nat)
    requires Sorted(snaps) && KnownSnapshots(born, snaps) && i < j < |GuidsBetween(snaps, lo, hi)|
    ensures var r := GuidsBetween(snaps, lo, hi);
            r[i] in born && r[j] in born && born[r[i]] < born[r[j]]
  {
    var init, last := snaps[..|snaps| - 1], snaps[|snaps| - 1];
    assert snaps == init + [last];
    var r := GuidsBetween(init, lo, hi);
    if j < |r| {
      BetweenInOrder(born, init, lo, hi, i, j);
    } else {
      BetweenIsInside(born, init, lo, hi, r[i]);
      var s :| s in init && s.guid == r[i] && s.createtxg == born[r[i]];
      assert last in snaps;
    }
  }

  lemma BetweenAscends(born: map<nat, nat>, snaps: seq<SnapshotEntry>, lo: nat, hi: nat)
    requires Sorted(snaps) && KnownSnapshots(born, snaps)
    ensures
      var r := GuidsBetween(snaps, lo, hi);
      && (forall g | g in r :: g in born && lo < born[g] < hi)
      && (forall i, j | 0 <= i < j < |r| :: born[r[i]] < born[r[j]])
      && (forall g | g in r :: exists s :: s in snaps && s.guid == g)
  {
    forall g | g in GuidsBetween(snaps, lo, hi)
      ensures g in born && lo < born[g] < hi
      ensures exists s :: s in snaps && s.guid == g
    {
      BetweenIsInside(born, snaps, lo, hi, g);
    }
    forall i, j | 0 <= i < j < |GuidsBetween(snaps, lo, hi)|
      ensures var r := GuidsBetween(snaps, lo, hi); born[r[i]] < born[r[j]]
    {
      BetweenInOrder(born, snaps, lo, hi, i, j);
    }
  }

  lemma {:induction false} BetweenIsComplete(snaps: seq<SnapshotEntry>, lo: nat, hi: nat, s: SnapshotEntry)
    requires s in snaps && lo < s.createtxg < hi
    ensures s.guid in GuidsBetween(snaps, lo, hi)
  {
    var init, last := snaps[..|snaps| - 1], snaps[|snaps| - 1];
    assert snaps == init + [last];
    if s != last {
      BetweenIsComplete(init, lo, hi, s);
    }
  }

  /** What `zfs recv` without `-F` demands of the receiver. */
  predicate Admits(s: State, plan: SnapshotPlan)
    requires !plan.Nothing?
  {
    if plan.Resume? then
      s.recv.partial == Some(Partial(plan.token, plan.decoded.fromGuid, plan.decoded.toGuid))
    else if plan.Full? then
      !s.recv.present && s.recv.snaps == [] && s.recv.partial.None?
    else
      && s.recv.partial.None?
      && s.recv.snaps != []
      && plan.from.guid == Head(s.recv.snaps)
      && plan.from.guid in s.born && plan.to.guid in s.born
      && s.born[plan.from.guid] < s.born[plan.to.guid]
  }

  // -------------------------------------------------------------- transitions

  function Environment(c: Config, s: State, e: Event): Option<State> {
    match e
    case TakeSnapshot(entry, matches) =>
      if entry.guid !in s.seen && (forall g | g in s.born :: s.born[g] < entry.createtxg) then
        Some(s.(born := s.born[entry.guid := entry.createtxg],
                matching := if matches then s.matching + {entry.guid} else s.matching,
                seen := s.seen + {entry.guid},
                snaps := s.snaps + [entry]))
      else None
    case SenderDestroys(i) =>
      if i < |s.snaps| && s.snaps[i].guid !in s.stepHeld then Some(s.(snaps := RemoveAt(s.snaps, i))) else None
    case ForeignBookmark(b) =>
      if !Own(c, b) && b.guid in s.born && s.born[b.guid] == b.createtxg then
        Some(s.(bookmarks := s.bookmarks + [b]))
      else None
    case ForeignBookmarkGone(i) =>
      if i < |s.bookmarks| && !Own(c, s.bookmarks[i]) then
        Some(s.(bookmarks := RemoveAt(s.bookmarks, i)))
      else None
    case ReceiverDestroys(i) =>
      if && i < |s.recv.snaps|
         && s.recv.snaps[i] !in s.recv.tagged
         && (s.recv.channel.Ingesting? ==> s.recv.channel.stream.base != Some(s.recv.snaps[i]))
         && (s.recv.partial.Some? ==> s.recv.partial.value.base != Some(s.recv.snaps[i]))
      then Some(s.(recv := s.recv.(snaps := RemoveAt(s.recv.snaps, i))))
      else None
    case _ => Some(s.(phase := Idle))
  }

  function ReceiveProcess(s: State, e: Event): Option<State> {
    match e
    case Land(held) =>
      if s.recv.channel.Ingesting? then
        var st := s.recv.channel.stream;
        Some(s.(recv := s.recv.(snaps := s.recv.snaps + st.via + [st.to], present := true,
                                tagged := if held then s.recv.tagged + {st.to} else s.recv.tagged,
                                channel := HandingOver(st.to, held)),
                received := true))
      else None
    case Interrupt(left, landed) =>
      if s.recv.channel.Ingesting? && landed <= |s.recv.channel.stream.via| then
        var st := s.recv.channel.stream;
        var base := if landed == 0 then st.base else Some(st.via[landed - 1]);
        var next := if landed < |st.via| then st.via[landed] else st.to;
        Some(s.(recv := s.recv.(snaps := s.recv.snaps + st.via[..landed],
                                present := s.recv.present || landed > 0 || left.Some?,
                                partial := if left.Some? then Some(Partial(left.value, base, next)) else None,
                                channel := NoChannel),
                received := s.received || landed > 0))
      else None
    case ReleaseTag(g) =>
      if s.recv.channel.HandingOver? && s.recv.channel.held && g != s.recv.channel.landed then
        Some(s.(recv := s.recv.(tagged := s.recv.tagged - {g})))
      else None
    case Answer =>
      if s.recv.channel.HandingOver? then
        Some(s.(recv := s.recv.(channel := NoChannel),
                phase := if s.phase.Streaming? then s.phase.(answered := true) else s.phase))
      else None
    case LateReleaseTag(landed, g) =>
      if landed in s.recv.late && g != landed then Some(s.(recv := s.recv.(tagged := s.recv.tagged - {g}))) else None
    case LateEnds(landed) =>
      if landed in s.recv.late then Some(s.(recv := s.recv.(late := s.recv.late - {landed}))) else None
    case _ =>
      if s.recv.channel.HandingOver? then Some(s.(recv := s.recv.(channel := NoChannel))) else None
  }

  function Planning(c: Config, s: State, e: Event): Option<State> {
    match e
    case ListSender =>
      if s.phase.Idle? then Some(s.(phase := Listed(Select(s.snaps, s.matching)))) else None
    case ListReceiver(tokenSeen) =>
      if s.phase.Listed? then
        var p := if tokenSeen then s.recv.partial else None;
        var token := if p.Some? then Some(p.value.token) else None;
        var decoded := if p.Some? then Some(ResumeToken("", p.value.to, p.value.base)) else None;
        Some(s.(phase := Replied(s.phase.list,
                                 Inputs(s.phase.list, s.recv.snaps, s.recv.present, token, decoded, [], None, c.mode))))
      else None
    case Decide(decodes, tokenBookmarks, fallbackRead) =>
      if s.phase.Replied? then
        var inp := s.phase.inp.(decoded := if decodes then s.phase.inp.decoded else None,
                                tokenBookmarks := tokenBookmarks,
                                fallback := if fallbackRead then Some(s.bookmarks) else None);
        match PlanOneFilesystem(inp)
        case Err(_) => Some(s.(phase := Idle))
        case Ok(plan) => Some(s.(phase := if plan.Nothing? then Idle else Planned(s.phase.list, plan)))
      else None
    case _ =>
      // the discard call, when the plan asks for one, needs the receive lock
      if s.phase.Planned? && !s.phase.plan.Nothing? then
        var ready := s.(phase := Placing(s.phase.list, s.phase.plan, HoldTargets(s.phase.list, s.phase.plan)));
        if s.phase.plan.Resume? || !s.phase.plan.discard then Some(ready)
        else if !s.recv.channel.Ingesting? then Some(ready.(recv := s.recv.(partial := None)))
        else None
      else None
  }

  function Executing(s: State, e: Event): Option<State> {
    match e
    case Place =>
      if s.phase.Placing? && s.phase.todo != [] && s.phase.todo[0] in Guids(s.snaps) then
        Some(s.(stepHeld := s.stepHeld + {s.phase.todo[0]}, phase := s.phase.(todo := s.phase.todo[1..])))
      else None
    case ListHolds(ok) =>
      if s.phase.Placing? && s.phase.todo == [] && !s.phase.plan.Nothing? then
        var keep := Keep(s.phase.list, s.phase.plan);
        var stale := if ok then (Guids(s.phase.list) + keep) * s.stepHeld - keep else {};
        Some(s.(phase := Sweeping(s.phase.list, s.phase.plan, stale)))
      else None
    case Release(g, ok) =>
      if s.phase.Sweeping? && g in s.phase.stale then
        Some(s.(stepHeld := if ok then s.stepHeld - {g} else s.stepHeld,
                phase := s.phase.(stale := s.phase.stale - {g})))
      else if s.phase.Releasing? && g in s.phase.stale then
        Some(s.(stepHeld := if ok then s.stepHeld - {g} else s.stepHeld,
                phase := s.phase.(stale := s.phase.stale - {g})))
      else None
    case _ =>
      if s.phase.Sweeping? && s.phase.stale == {} && !s.phase.plan.Nothing? && !s.recv.channel.Ingesting?
         && Admits(s, s.phase.plan)
      then
        var plan := s.phase.plan;
        var stream := Stream(BaseGuid(plan), Between(s.born, s.snaps, plan), ToGuid(plan));
        var late :=
          if s.recv.channel.HandingOver? && s.recv.channel.held then s.recv.late + {s.recv.channel.landed}
          else s.recv.late;
        Some(s.(recv := s.recv.(partial := None, channel := Ingesting(stream), late := late),
                phase := Streaming(s.phase.list, ToGuid(plan), false)))
      else None
  }

  function Committing(c: Config, s: State, e: Event): Option<State> {
    match e
    case SeeAnswer =>
      if s.phase.Streaming? && s.phase.answered then Some(s.(phase := Sent(s.phase.list, s.phase.to))) else None
    case CreateCursor(ok, taken, listed) =>
      if !s.phase.Sent? then None
      else
        var to := s.phase.to;
        var leaf := Names.CursorLeaf(to, c.job, c.peer);
        var made := ok || taken;
        if made && (to !in Guids(s.snaps) || to !in s.born || exists b | b in s.bookmarks :: b.leaf == leaf && b.guid != to)
        then None
        else
          var bookmarks :=
            if made then DropLeaf(s.bookmarks, leaf) + [BookmarkRef(leaf, to, s.born[to])] else s.bookmarks;
          var phase :=
            if ok then DroppingCursors(s.phase.list, to, if listed then StaleLeaves(c, bookmarks, leaf) else {})
            else Releasing(if listed then (Guids(s.phase.list) + {to}) * s.stepHeld - {to} else {});
          Some(s.(bookmarks := bookmarks, phase := phase))
    case DropCursor(leaf, ok) =>
      if s.phase.DroppingCursors? && leaf in s.phase.leaves then
        Some(s.(bookmarks := if ok then DropLeaf(s.bookmarks, leaf) else s.bookmarks,
                phase := s.phase.(leaves := s.phase.leaves - {leaf})))
      else None
    case ListTags(ok) =>
      if s.phase.DroppingCursors? && s.phase.leaves == {} then
        Some(s.(phase := Releasing(if ok then (Guids(s.phase.list) + {s.phase.to}) * s.stepHeld else {})))
      else None
    case _ =>
      if s.phase.Releasing? && s.phase.stale == {} then Some(s.(phase := Idle)) else None
  }

  predicate EnvironmentEvent(e: Event) {
    || e.TakeSnapshot? || e.SenderDestroys? || e.ForeignBookmark? || e.ForeignBookmarkGone?
    || e.ReceiverDestroys? || e.GiveUp?
  }

  predicate ReceiveEvent(e: Event) {
    e.Land? || e.Interrupt? || e.ReleaseTag? || e.Answer? || e.ChannelDies? || e.LateReleaseTag? || e.LateEnds?
  }

  predicate PlanningEvent(e: Event) {
    e.ListSender? || e.ListReceiver? || e.Decide? || e.Prepare?
  }

  predicate ExecutingEvent(e: Event) {
    e.Place? || e.ListHolds? || e.Release? || e.OpenRecv?
  }

  function Next(c: Config, s: State, e: Event): Option<State> {
    if EnvironmentEvent(e) then Environment(c, s, e)
    else if ReceiveEvent(e) then ReceiveProcess(s, e)
    else if PlanningEvent(e) then Planning(c, s, e)
    else if ExecutingEvent(e) then Executing(s, e)
    else Committing(c, s, e)
  }

  /** The state after a run, or `None` when some event was not enabled. */
  function Run(c: Config, s: State, events: seq<Event>): Option<State>
    decreases |events|
  {
    if events == [] then Some(s)
    else
      match Next(c, s, events[0])
      case None => None
      case Some(s') => Run(c, s', events[1..])
  }

  /** The receiver is not read while a stream of the pair is being ingested, no
      stream is admitted while an earlier process hands over its tag, an
      interrupted stream has landed nothing, and every landed one gets the tag. */
  predicate QuietEvent(s: State, e: Event) {
    && (e.ListReceiver? ==> !s.recv.channel.Ingesting?)
    && (e.OpenRecv? ==> s.recv.channel.NoChannel?)
    && (e.Interrupt? ==> e.landed == 0)
    && (e.Land? ==> e.held)
  }

  predicate QuietRun(c: Config, s: State, events: seq<Event>)
    decreases |events|
  {
    events == []
    || (&& QuietEvent(s, events[0])
        && (Next(c, s, events[0]).Some? ==> QuietRun(c, Next(c, s, events[0]).value, events[1..])))
  }

  // --------------------------------------------------------------- invariant

  /** The sender can still name `g`: its own cursor carries it, or a snapshot
      of the job that the step hold protects. */
  ghost predicate Named(c: Config, s: State, g: nat) {
    || HasCursor(c, s.bookmarks, g)
    || (g in s.stepHeld && g in s.matching && g in Guids(s.snaps))
  }

  /** Main property: once a stream has landed, the sender names the receiver's
      newest snapshot, and that snapshot carries the last-received tag. */
  ghost predicate Witness(c: Config, s: State) {
    s.received ==>
      && s.recv.snaps != []
      && s.recv.present
      && Head(s.recv.snaps) in s.recv.tagged
      && Named(c, s, Head(s.recv.snaps))
  }

  ghost predicate Sane(s: State) {
    && History(s.born)
    && s.born.Keys <= s.seen
    && (forall g | g in s.recv.snaps :: g in s.seen)
    && Sorted(s.snaps)
    && KnownSnapshots(s.born, s.snaps)
    && KnownBookmarks(s.born, s.bookmarks)
    && Ordered(s.born, s.recv.snaps)
    && s.stepHeld <= Guids(s.snaps)
    && (s.recv.snaps != [] ==> s.recv.present)
  }

  /** A stream or a partial receive sits on the receiver's newest snapshot. */
  ghost predicate SitsOnHead(s: State, base: Option<nat>, to: nat) {
    && to in s.born
    && match base
       case None => s.recv.snaps == []
       case Some(h) => s.recv.snaps != [] && h == Head(s.recv.snaps) && h in s.born && s.born[h] < s.born[to]
  }

  ghost predicate Ascending(s: State, st: Stream) {
    && st.to in s.born
    && (forall g | g in st.via :: g in s.born && s.born[g] < s.born[st.to])
    && (forall i, j | 0 <= i < j < |st.via| :: s.born[st.via[i]] < s.born[st.via[j]])
    && (st.via != [] ==> st.base.Some? && st.base.value in s.born
                         && forall g | g in st.via :: s.born[st.base.value] < s.born[g])
  }

  ghost predicate ReceiveOk(s: State) {
    && s.recv.late == {}
    && (s.recv.partial.Some? ==>
          s.recv.present && SitsOnHead(s, s.recv.partial.value.base, s.recv.partial.value.to))
    && match s.recv.channel
       case NoChannel => true
       case Ingesting(st) =>
         && SitsOnHead(s, st.base, st.to)
         && Ascending(s, st)
         && st.to in s.stepHeld && st.to in s.matching
         && s.recv.partial.None?
       case HandingOver(to, _) => s.received && s.recv.snaps != [] && Head(s.recv.snaps) == to
  }

  ghost predicate ListOk(s: State, list: seq<SnapshotEntry>) {
    && Sorted(list)
    && KnownSnapshots(s.born, list)
    && Guids(list) <= s.matching
  }

  /** If only a held snapshot names the receiver's head, it is in `safe`. */
  ghost predicate Spared(c: Config, s: State, safe: set<nat>) {
    s.received && s.recv.snaps != [] ==>
      || HasCursor(c, s.bookmarks, Head(s.recv.snaps))
      || Head(s.recv.snaps) in safe
  }

  ghost predicate ReplyOk(c: Config, s: State, list: seq<SnapshotEntry>, inp: Inputs) {
    && inp.sender == list
    && inp.mode == c.mode
    && (forall g | g in inp.receiver :: g in s.seen)
    && Ordered(s.born, inp.receiver)
    && (s.received && s.recv.snaps != [] ==> inp.receiver != [] && Head(inp.receiver) == Head(s.recv.snaps))
    && (inp.decoded.Some? ==> inp.token.Some? && s.recv.partial.Some? && inp.decoded.value.fromGuid == s.recv.partial.value.base)
  }

  ghost predicate PlanOk(c: Config, s: State, list: seq<SnapshotEntry>, plan: SnapshotPlan) {
    && ListOk(s, list)
    && !plan.Nothing?
    && ToGuid(plan) in Guids(list)
    && Spared(c, s, Keep(list, plan))
    && !s.recv.channel.Ingesting?
  }

  ghost predicate PhaseOk(c: Config, s: State) {
    match s.phase
    case Idle => true
    case Listed(list) =>
      && ListOk(s, list) && Spared(c, s, Guids(list))
      && (s.recv.channel.Ingesting? ==> s.recv.channel.stream.to in Guids(list))
    case Replied(list, inp) =>
      ListOk(s, list) && Spared(c, s, Guids(list)) && !s.recv.channel.Ingesting? && ReplyOk(c, s, list, inp)
    case Planned(list, plan) => PlanOk(c, s, list, plan)
    case Placing(list, plan, todo) =>
      PlanOk(c, s, list, plan) && forall g | g in Keep(list, plan) :: g in todo || g in s.stepHeld
    case Sweeping(list, plan, stale) =>
      PlanOk(c, s, list, plan) && Keep(list, plan) <= s.stepHeld && stale !! Keep(list, plan)
    case Streaming(list, to, answered) =>
      && to in s.stepHeld && to in s.matching
      && (answered ==> SentOk(s, to))
      && (s.recv.channel.Ingesting? ==> s.recv.channel.stream.to == to)
      && (s.recv.channel.HandingOver? ==> s.recv.channel.landed == to)
    case Sent(list, to) => SentOk(s, to)
    case DroppingCursors(list, to, leaves) =>
      && SentOk(s, to)
      && BookmarkRef(Names.CursorLeaf(to, c.job, c.peer), to, s.born[to]) in s.bookmarks
      && Names.CursorLeaf(to, c.job, c.peer) !in leaves
    case Releasing(stale) =>
      && s.recv.channel.NoChannel?
      && (s.received && s.recv.snaps != [] ==>
            HasCursor(c, s.bookmarks, Head(s.recv.snaps)) || Head(s.recv.snaps) !in stale)
  }

  ghost predicate SentOk(s: State, to: nat) {
    && s.recv.channel.NoChannel?
    && s.received && s.recv.snaps != [] && Head(s.recv.snaps) == to
    && to in s.born && to in s.stepHeld && to in s.matching
  }

  ghost predicate Inv(c: Config, s: State) {
    Sane(s) && Witness(c, s) && ReceiveOk(s) && PhaseOk(c, s)
  }

  /** A pair that has never received: whatever snapshots, bookmarks and
      receiver history are there already, consistent with each other. */
  ghost predicate Init(s: State) {
    && Sane(s)
    && s.stepHeld == {}
    && s.recv.partial.None? && s.recv.channel.NoChannel? && s.recv.late == {}
    && s.phase.Idle? && !s.received
  }
}
