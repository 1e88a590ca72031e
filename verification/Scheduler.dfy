/**
 When a push job replicates to which peer (`daemon/src/jobs/push/mod.rs`):
 target selection, manual requests, recorded outcomes and the sleep in between.
 Times are whole Unix seconds.
 */
module Scheduler {
  import opened Wrappers

  const FALLBACK_POLL := 900
  const BLOCKED_RETRY := 300
  const SHORTEST_NAP := 10

  datatype RunStatus = RunOk | RunDry | RunCancelled | RunError

  datatype PeerOutcome = PeerOutcome(lastSuccess: Option<int>, lastAttempt: Option<int>, outcome: Option<RunStatus>)

  const NO_OUTCOME := PeerOutcome(None, None, None)

  datatype PeerConfig = PeerConfig(auto: bool, autoInterval: Option<nat>)

  datatype Reason = Manual | Auto

  datatype Selection = Selection(peer: string, reason: Reason)

  datatype CycleError =
    | Cancelled
    | PeerNotConnected(peer: string)
    | AutoTargetStale(peer: string, hours: int)
    | Other(message: string)

  function Classify(cancelled: bool, dryRun: bool, errors: seq<CycleError>): (r: RunStatus)
    ensures r.RunCancelled? <==> cancelled || Cancelled in errors
    ensures r.RunOk? <==> !cancelled && !dryRun && errors == []
    ensures r.RunDry? <==> !cancelled && dryRun && errors == []
  {
    if cancelled || Cancelled in errors then RunCancelled
    else if errors != [] then RunError
    else if dryRun then RunDry
    else RunOk
  }

  /** The outcome after one attempt. */
  function Recorded(o: PeerOutcome, finished: int, status: RunStatus): PeerOutcome {
    PeerOutcome(if status.RunOk? then Some(finished) else o.lastSuccess, Some(finished), Some(status))
  }

  /** What the cadence counts from. */
  function Anchor(o: PeerOutcome): Option<int> {
    if o.outcome == Some(RunCancelled) then o.lastAttempt else o.lastSuccess
  }

  predicate Due(o: PeerOutcome, cadence: int, now: int) {
    Anchor(o).Some? ==> now - Anchor(o).value >= cadence
  }

  // ---------------------------------------------------------- one peer's runs

  /** One attempt on a peer. */
  datatype Attempt = Attempt(auto: bool, start: int, finished: int, status: RunStatus)

  function OutcomeAfter(seed: PeerOutcome, attempts: seq<Attempt>): PeerOutcome {
    if attempts == [] then seed
    else
      var last := attempts[|attempts| - 1];
      Recorded(OutcomeAfter(seed, attempts[..|attempts| - 1]), last.finished, last.status)
  }

  /** Attempts follow one another in time, and an automatic one only starts when
      due. */
  ghost predicate Scheduled(seed: PeerOutcome, cadence: int, attempts: seq<Attempt>) {
    && (forall i | 0 <= i < |attempts| :: attempts[i].start <= attempts[i].finished)
    && (forall i, j | 0 <= i < j < |attempts| :: attempts[i].finished <= attempts[j].start)
    && forall j | 0 <= j < |attempts| && attempts[j].auto ::
         Due(OutcomeAfter(seed, attempts[..j]), cadence, attempts[j].start)
  }

  // ------------------------------------------------------ what a peer waits for

  /** Attempts finish in order. */
  ghost predicate InOrder(attempts: seq<Attempt>) {
    forall a, b | 0 <= a < b < |attempts| :: attempts[a].finished <= attempts[b].finished
  }

  /** The last success, of these attempts or before them, is no older than `t`. */
  ghost predicate SucceededSince(seed: PeerOutcome, attempts: seq<Attempt>, t: int) {
    || (exists k :: 0 <= k < |attempts| && attempts[k].status.RunOk? && attempts[k].finished >= t)
    || ((forall a | a in attempts :: !a.status.RunOk?) && seed.lastSuccess.Some? && seed.lastSuccess.value >= t)
  }

  lemma {:induction false} LastSuccessIsTheYoungest(seed: PeerOutcome, attempts: seq<Attempt>, t: int)
    requires InOrder(attempts)
    ensures var last := OutcomeAfter(seed, attempts).lastSuccess;
            SucceededSince(seed, attempts, t) <==> last.Some? && last.value >= t
  {
    if attempts != [] {
      var init, last := attempts[..|attempts| - 1], attempts[|attempts| - 1];
      assert attempts == init + [last];
      LastSuccessIsTheYoungest(seed, init, t);
      if last.status.RunOk? {
        assert last in attempts && attempts[|attempts| - 1] == last;
      } else {
        assert SucceededSince(seed, init, t) <==> SucceededSince(seed, attempts, t) by {
          assert forall k | 0 <= k < |init| :: attempts[k] == init[k];
        }
      }
    }
  }

  /** The `i`-th attempt still counts: the newest one was cancelled, or some
      success is no older. */
  ghost predicate Remembered(seed: PeerOutcome, attempts: seq<Attempt>, i: nat)
    requires i < |attempts|
  {
    || attempts[|attempts| - 1].status.RunCancelled?
    || SucceededSince(seed, attempts, attempts[i].finished)
  }

  lemma RememberedByTheAnchor(seed: PeerOutcome, attempts: seq<Attempt>, i: nat)
    requires i < |attempts| && InOrder(attempts)
    ensures var anchor := Anchor(OutcomeAfter(seed, attempts));
            Remembered(seed, attempts, i) <==> anchor.Some? && anchor.value >= attempts[i].finished
  {
    LastSuccessIsTheYoungest(seed, attempts, attempts[i].finished);
    assert i < |attempts| - 1 ==> attempts[i].finished <= attempts[|attempts| - 1].finished;
  }

  /** Main result: after any attempt, however it ended, an automatic one waits a
      cadence from it exactly while it is remembered; from the newest attempt on,
      unless that long has passed already. */
  lemma AutoWaitsIff(seed: PeerOutcome, cadence: int, attempts: seq<Attempt>, i: nat)
    requires i < |attempts| && InOrder(attempts)
    ensures Remembered(seed, attempts, i)
            <==> forall now | Due(OutcomeAfter(seed, attempts), cadence, now) :: now - attempts[i].finished >= cadence
    ensures var last := attempts[|attempts| - 1].finished;
            Remembered(seed, attempts, i) || last - attempts[i].finished >= cadence
            <==> forall now | now >= last && Due(OutcomeAfter(seed, attempts), cadence, now) ::
                   now - attempts[i].finished >= cadence
  {
    RememberedByTheAnchor(seed, attempts, i);
    var o, last := OutcomeAfter(seed, attempts), attempts[|attempts| - 1].finished;
    if !Remembered(seed, attempts, i) {
      var free := if Anchor(o).Some? then Anchor(o).value + cadence else attempts[i].finished + cadence - 1;
      var now := if free < last then last else free;
      assert Due(o, cadence, free) && Due(o, cadence, now);
    }
  }

  /** So no automatic attempt starts within a cadence of a success before it. */
  lemma AutoWaitsAfterSuccess(seed: PeerOutcome, cadence: nat, attempts: seq<Attempt>, i: nat, j: nat)
    requires Scheduled(seed, cadence, attempts)
    requires i < j < |attempts| && attempts[i].status.RunOk? && attempts[j].auto
    ensures attempts[j].start - attempts[i].finished >= cadence
  {
    var before := attempts[..j];
    assert before[i].status.RunOk? && before[i].finished >= attempts[i].finished;
    AutoWaitsWhileRemembered(seed, cadence, attempts, i, j);
  }

  /** Nor within a cadence of any other attempt that is remembered by then. */
  lemma AutoWaitsWhileRemembered(seed: PeerOutcome, cadence: nat, attempts: seq<Attempt>, i: nat, j: nat)
    requires Scheduled(seed, cadence, attempts)
    requires i < j < |attempts| && attempts[j].auto && Remembered(seed, attempts[..j], i)
    ensures attempts[j].start - attempts[i].finished >= cadence
  {
    var before := attempts[..j];
    forall a, b | 0 <= a < b < |before|
      ensures before[a].finished <= before[b].finished
    {
      assert attempts[b].start <= attempts[b].finished;
    }
    RememberedByTheAnchor(seed, before, i);
    assert Due(OutcomeAfter(seed, before), cadence, attempts[j].start) && before[i] == attempts[i];
  }

  /** A failed attempt, say a manual one, drops the cancellation as an anchor: an
      automatic one may then start as soon as the last success allows. */
  lemma FailureForgetsTheCancel(seed: PeerOutcome, cadence: nat, cancelled: Attempt, failed: Attempt, now: int)
    requires cancelled.status.RunCancelled? && failed.status.RunError?
    ensures Due(OutcomeAfter(seed, [cancelled, failed]), cadence, now)
            <==> (seed.lastSuccess.Some? ==> now - seed.lastSuccess.value >= cadence)
  {
    assert [cancelled, failed][..1] == [cancelled] && [cancelled][..0] == [];
    assert OutcomeAfter(seed, [cancelled]) == Recorded(seed, cancelled.finished, RunCancelled);
    assert OutcomeAfter(seed, [cancelled, failed]).lastSuccess == seed.lastSuccess;
  }

  /** `o` is what the attempts so far leave behind, all of them started as the
      schedule allows and finished by `clock`. */
  ghost predicate Chronicle(seed: PeerOutcome, cadence: int, attempts: seq<Attempt>, o: PeerOutcome, clock: int) {
    && o == OutcomeAfter(seed, attempts)
    && Scheduled(seed, cadence, attempts)
    && forall a | a in attempts :: a.finished <= clock
  }

  lemma TimePasses(seed: PeerOutcome, cadence: int, attempts: seq<Attempt>, o: PeerOutcome, clock: int, later: int)
    requires Chronicle(seed, cadence, attempts, o, clock) && clock <= later
    ensures Chronicle(seed, cadence, attempts, o, later)
  {
  }

  lemma AttemptAppended(seed: PeerOutcome, cadence: int, attempts: seq<Attempt>, o: PeerOutcome, clock: int,
                        a: Attempt, later: int)
    requires Chronicle(seed, cadence, attempts, o, clock) && a.start <= a.finished <= later
    requires clock <= later && forall b | b in attempts :: b.finished <= a.start
    requires a.auto ==> Due(o, cadence, a.start)
    ensures Chronicle(seed, cadence, attempts + [a], Recorded(o, a.finished, a.status), later)
  {
    var all := attempts + [a];
    assert all[..|attempts|] == attempts;
    assert forall j | 0 <= j < |attempts| :: all[..j] == attempts[..j];
  }

  /** No automatic attempt starts within a cadence of an earlier one that is
      remembered by then. */
  ghost predicate Spaced(seed: PeerOutcome, cadence: int, attempts: seq<Attempt>) {
    forall i, j | 0 <= i < j < |attempts| && attempts[j].auto && Remembered(seed, attempts[..j], i) ::
      attempts[j].start - attempts[i].finished >= cadence
  }

  lemma ScheduledIsSpaced(seed: PeerOutcome, cadence: nat, attempts: seq<Attempt>)
    requires Scheduled(seed, cadence, attempts)
    ensures Spaced(seed, cadence, attempts)
  {
    forall i, j | 0 <= i < j < |attempts| && attempts[j].auto && Remembered(seed, attempts[..j], i)
      ensures attempts[j].start - attempts[i].finished >= cadence
    {
      AutoWaitsWhileRemembered(seed, cadence, attempts, i, j);
    }
  }

  // -------------------------------------------------------------- cancellation

  /** What a cycle meets at one selected peer: whether it has been cancelled by
      the time it comes to the peer, whether it is during the attempt, how long
      that takes, what fails, and which requests come in meanwhile. */
  datatype Beat = Beat(cancelledBefore: bool, cancelledDuring: bool, elapsed: nat, errors: seq<CycleError>,
                       requests: set<string>)

  type Beats = int -> Beat

  /** The cycle comes to its `k`-th peer uncancelled. */
  predicate Attempted(beats: Beats, k: nat) {
    forall j | 0 <= j <= k :: !beats(j).cancelledBefore && (j < k ==> !beats(j).cancelledDuring)
  }

  /** When the `n`-th attempt is over. */
  function FinishedAt(beats: Beats, started: int, n: nat): int {
    if n == 0 then started else FinishedAt(beats, started, n - 1) + beats(n - 1).elapsed
  }

  /** The requests that came in during the first `n` attempts. */
  function RequestedDuring(beats: Beats, n: nat): set<string> {
    if n == 0 then {} else RequestedDuring(beats, n - 1) + beats(n - 1).requests
  }

  /** The attempt a cycle makes on its `k`-th peer. */
  function AttemptOf(beats: Beats, dryRun: bool, started: int, reason: Reason, k: nat): Attempt {
    Attempt(reason.Auto?, started, FinishedAt(beats, started, k + 1),
            Classify(beats(k).cancelledDuring, dryRun, beats(k).errors))
  }

  /** What the first `n` attempts of a cycle add to the history of `p`. */
  function Made(selected: seq<Selection>, beats: Beats, dryRun: bool, started: int, n: nat, p: string): seq<Attempt>
    requires n <= |selected|
  {
    if n == 0 then []
    else
      Made(selected, beats, dryRun, started, n - 1, p)
      + if selected[n - 1].peer == p then [AttemptOf(beats, dryRun, started, selected[n - 1].reason, n - 1)] else []
  }

  predicate DistinctPeers(selected: seq<Selection>) {
    forall i, j | 0 <= i < j < |selected| :: selected[i].peer != selected[j].peer
  }

  /** At most one attempt on each peer, none on one that is not selected. */
  lemma {:induction false} MadeOnce(selected: seq<Selection>, beats: Beats, dryRun: bool, started: int, n: nat, k: nat)
    requires n <= |selected| && k < |selected| && DistinctPeers(selected)
    ensures Made(selected, beats, dryRun, started, n, selected[k].peer) ==
            if k < n then [AttemptOf(beats, dryRun, started, selected[k].reason, k)] else []
  {
    if n > 0 {
      MadeOnce(selected, beats, dryRun, started, n - 1, k);
      assert selected[n - 1].peer == selected[k].peer <==> k == n - 1;
    }
  }

  lemma {:induction false} MadeOnlyOnSelected(selected: seq<Selection>, beats: Beats, dryRun: bool, started: int, n: nat,
                                              p: string)
    requires n <= |selected| && forall s | s in selected :: s.peer != p
    ensures Made(selected, beats, dryRun, started, n, p) == []
  {
    if n > 0 {
      MadeOnlyOnSelected(selected, beats, dryRun, started, n - 1, p);
    }
  }

  function OutcomeIn(outcomes: map<string, PeerOutcome>, peer: string): PeerOutcome {
    if peer in outcomes then outcomes[peer] else NO_OUTCOME
  }

  ghost function HistoryIn(history: map<string, seq<Attempt>>, peer: string): seq<Attempt> {
    if peer in history then history[peer] else []
  }

  /** From `was` to `now` the first `n` attempts of a cycle were made and nothing
      else. */
  ghost predicate Progress(was: map<string, seq<Attempt>>, now: map<string, seq<Attempt>>, selected: seq<Selection>,
                           beats: Beats, dryRun: bool, started: int, n: nat)
    requires n <= |selected|
  {
    forall p :: ProgressAt(was, now, selected, beats, dryRun, started, n, p)
  }

  ghost predicate ProgressAt(was: map<string, seq<Attempt>>, now: map<string, seq<Attempt>>, selected: seq<Selection>,
                             beats: Beats, dryRun: bool, started: int, n: nat, p: string)
    requires n <= |selected|
  {
    HistoryIn(now, p) == HistoryIn(was, p) + Made(selected, beats, dryRun, started, n, p)
  }

  lemma ProgressGrows(was: map<string, seq<Attempt>>, mid: map<string, seq<Attempt>>, now: map<string, seq<Attempt>>,
                      selected: seq<Selection>, beats: Beats, dryRun: bool, started: int, n: nat)
    requires n < |selected| && Progress(was, mid, selected, beats, dryRun, started, n)
    requires var s := selected[n];
             now == mid[s.peer := HistoryIn(mid, s.peer) + [AttemptOf(beats, dryRun, started, s.reason, n)]]
    ensures Progress(was, now, selected, beats, dryRun, started, n + 1)
  {
    var next := n + 1;
    forall p
      ensures ProgressAt(was, now, selected, beats, dryRun, started, next, p)
    {
      assert ProgressAt(was, mid, selected, beats, dryRun, started, n, p);
    }
  }

  /** The attempt before the `n`-th peer was cancelled. */
  predicate CancelledIn(beats: Beats, n: nat) {
    n > 0 && beats(n - 1).cancelledDuring
  }

  /** After `n` attempts the loop stops exactly if the next is not to be made,
      and then none further on is. */
  lemma StopsHere(beats: Beats, n: nat, cancelled: bool)
    requires forall k: nat | k < n :: Attempted(beats, k)
    requires cancelled <==> CancelledIn(beats, n) || beats(n).cancelledBefore
    ensures !cancelled <==> Attempted(beats, n)
    ensures cancelled ==> forall k: nat | n <= k :: !Attempted(beats, k)
  {
    if !cancelled {
      forall j | 0 <= j <= n
        ensures !beats(j).cancelledBefore && (j < n ==> !beats(j).cancelledDuring)
      {
        if j < n {
          var last: nat := n - 1;
          assert Attempted(beats, last);
        }
      }
    } else {
      forall k: nat | n <= k
        ensures !Attempted(beats, k)
      {
        var j := if beats(n).cancelledBefore then n else n - 1;
        assert !(!beats(j).cancelledBefore && (j < k ==> !beats(j).cancelledDuring));
      }
    }
  }

  // ---------------------------------------------------------------------- naps

  predicate IsEarliest(dues: seq<int>, e: Option<int>) {
    && (e.None? <==> dues == [])
    && (e.Some? ==> e.value in dues && forall d | d in dues :: e.value <= d)
  }

  function Earliest(dues: seq<int>): (e: Option<int>)
    ensures IsEarliest(dues, e)
  {
    if dues == [] then None
    else
      var last := dues[|dues| - 1];
      var rest := Earliest(dues[..|dues| - 1]);
      assert dues == dues[..|dues| - 1] + [last];
      Some(if rest.Some? && rest.value < last then rest.value else last)
  }

  /** How long a job sleeps whose auto peers are due at `dues`. */
  function Nap(dues: seq<int>, now: int, fallback: nat): int {
    var e := Earliest(dues);
    var nap :=
      if e.None? then fallback
      else if e.value <= now then BLOCKED_RETRY
      else if e.value - now < fallback then e.value - now
      else fallback;
    if nap < SHORTEST_NAP then SHORTEST_NAP else nap
  }

  /** Five minutes when some peer is due already. Otherwise until the first peer
      is due, but not beyond the fallback, nor shorter than the floor. */
  lemma NapIs(dues: seq<int>, now: int, fallback: nat)
    ensures (exists d :: d in dues && d <= now) ==> Nap(dues, now, fallback) == 300
    ensures (forall d | d in dues :: d > now) ==>
              var nap := Nap(dues, now, fallback);
              && nap >= 10
              && (nap == fallback || nap == 10 || exists d :: d in dues && nap == d - now)
              && (nap > 10 ==> nap <= fallback && forall d | d in dues :: now + nap <= d)
              && (nap == 10 ==> fallback <= 10 || exists d :: d in dues && d <= now + 10)
  {
  }

  /** A nap is never shorter than the floor. A peer due later is overslept, by
      more than that floor, exactly when some other peer is already due and this
      one is within the blocked retry. */
  lemma OversleepsIff(dues: seq<int>, now: int, fallback: nat, due: int)
    requires due in dues && due > now
    ensures Nap(dues, now, fallback) >= SHORTEST_NAP
    ensures now + Nap(dues, now, fallback) <= due || Nap(dues, now, fallback) == SHORTEST_NAP
            <==> (forall d | d in dues :: d > now) || due >= now + BLOCKED_RETRY
  {
  }

  /** One peer that never synced and is not reachable, another due in a minute:
      the job sleeps five. */
  lemma NeverSyncedPeerHidesTheNext(now: int)
    ensures Nap([now, now + 60], now, FALLBACK_POLL) == 300
  {
    assert now in [now, now + 60];
  }

  /** Something the job's owner or its loop does. `wait` is the time since the
      last turn. */
  datatype Turn =
    | Request(peer: string)
    | SetPaused(on: bool)
    | Tick(wait: nat, links: map<string, bool>, beats: Beats)

  // ------------------------------------------------------------------ the job

  class PushJob {
    const targets: seq<string>
    const peers: map<string, PeerConfig>
    const interval: Option<nat>
    const dryRun: bool
    var paused: bool
    var manual: set<string>
    var outcomes: map<string, PeerOutcome>
    ghost const seeds: map<string, PeerOutcome>
    ghost var history: map<string, seq<Attempt>>
    ghost var clock: int

    /** `recorded` holds the outcomes of an earlier process. */
    constructor (targets: seq<string>, peers: map<string, PeerConfig>, interval: Option<nat>, dryRun: bool,
                 recorded: map<string, PeerOutcome>)
      requires forall i, j | 0 <= i < j < |targets| :: targets[i] != targets[j]
      ensures this.targets == targets && this.peers == peers && this.interval == interval && this.dryRun == dryRun
      ensures Valid() && !paused && manual == {} && outcomes == recorded
      ensures seeds == recorded && history == map[] && clock == 0
    {
      this.targets, this.peers, this.interval, this.dryRun := targets, peers, interval, dryRun;
      paused, manual, outcomes := false, {}, recorded;
      seeds, history, clock := recorded, map[], 0;
    }

    ghost predicate Valid()
      reads this
    {
      && (forall i, j | 0 <= i < j < |targets| :: targets[i] != targets[j])
      && (forall p | p in manual :: p in targets)
      && Chronicled(outcomes, history, clock)
    }

    ghost function Seed(peer: string): PeerOutcome {
      OutcomeIn(seeds, peer)
    }

    ghost function History(peer: string): seq<Attempt>
      reads this`history
    {
      HistoryIn(history, peer)
    }

    /** The outcome kept for every peer is that of its attempts so far. */
    ghost predicate Chronicled(outcomes: map<string, PeerOutcome>, history: map<string, seq<Attempt>>, clock: int) {
      forall p :: ChronicledAt(outcomes, history, clock, p)
    }

    ghost predicate ChronicledAt(outcomes: map<string, PeerOutcome>, history: map<string, seq<Attempt>>, clock: int,
                                 p: string) {
      Chronicle(Seed(p), Cadence(p), HistoryIn(history, p), OutcomeIn(outcomes, p), clock)
    }

    lemma ChroniclesGrow(outcomes: map<string, PeerOutcome>, history: map<string, seq<Attempt>>, clock: int,
                         peer: string, a: Attempt, later: int)
      requires Chronicled(outcomes, history, clock) && a.start <= a.finished <= later && clock <= later
      requires forall b | b in HistoryIn(history, peer) :: b.finished <= a.start
      requires a.auto ==> Due(OutcomeIn(outcomes, peer), Cadence(peer), a.start)
      ensures Chronicled(outcomes[peer := Recorded(OutcomeIn(outcomes, peer), a.finished, a.status)],
                         history[peer := HistoryIn(history, peer) + [a]], later)
    {
      var outcomes' := outcomes[peer := Recorded(OutcomeIn(outcomes, peer), a.finished, a.status)];
      var history' := history[peer := HistoryIn(history, peer) + [a]];
      forall p
        ensures ChronicledAt(outcomes', history', later, p)
      {
        assert ChronicledAt(outcomes, history, clock, p);
        if p == peer {
          AttemptAppended(Seed(p), Cadence(p), HistoryIn(history, p), OutcomeIn(outcomes, p), clock, a, later);
        } else {
          TimePasses(Seed(p), Cadence(p), HistoryIn(history, p), OutcomeIn(outcomes, p), clock, later);
        }
      }
    }

    predicate IsAuto(peer: string) {
      peer in peers && peers[peer].auto
    }

    function Cadence(peer: string): nat {
      if peer in peers && peers[peer].autoInterval.Some? then peers[peer].autoInterval.value
      else if interval.Some? then interval.value
      else FALLBACK_POLL
    }

    function Outcome(peer: string): PeerOutcome
      reads this`outcomes
    {
      OutcomeIn(outcomes, peer)
    }

    method RequestPush(peer: string) returns (ok: bool)
      requires Valid()
      modifies this`manual
      ensures Valid() && ok == (peer in targets)
      ensures manual == if ok then old(manual) + {peer} else old(manual)
    {
      ok := peer in targets;
      if ok {
        manual := manual + {peer};
      }
    }

    /** An automatic run of `peer` is licensed now. */
    predicate AutoReady(peer: string, now: int, links: map<string, bool>)
      reads this`paused, this`outcomes
    {
      && !paused && IsAuto(peer)
      && peer in links && links[peer]
      && Due(Outcome(peer), Cadence(peer), now)
    }

    /** The auto schedule has been out of reach for three cadences. */
    predicate Stale(peer: string, now: int, links: map<string, bool>)
      reads this`paused, this`outcomes
    {
      && !paused && IsAuto(peer)
      && !(peer in links && links[peer])
      && Anchor(Outcome(peer)).Some? && now - Anchor(Outcome(peer)).value > 3 * Cadence(peer)
    }

    /** What one target adds to the selection, given the requests taken. */
    function Choice(p: string, requested: set<string>, now: int, links: map<string, bool>): seq<Selection>
      reads this`paused, this`outcomes
    {
      if p in requested then (if p in links then [Selection(p, Manual)] else [])
      else if AutoReady(p, now, links) then [Selection(p, Auto)] else []
    }

    function Complaint(p: string, requested: set<string>, now: int, links: map<string, bool>): seq<CycleError>
      reads this`paused, this`outcomes
    {
      if p in requested then (if p in links then [] else [PeerNotConnected(p)])
      else if Stale(p, now, links) then [AutoTargetStale(p, (now - Anchor(Outcome(p)).value) / 3600)] else []
    }

    function Choices(ps: seq<string>, requested: set<string>, now: int, links: map<string, bool>): seq<Selection>
      reads this`paused, this`outcomes
    {
      if ps == [] then []
      else Choices(ps[..|ps| - 1], requested, now, links) + Choice(ps[|ps| - 1], requested, now, links)
    }

    function Complaints(ps: seq<string>, requested: set<string>, now: int, links: map<string, bool>): seq<CycleError>
      reads this`paused, this`outcomes
    {
      if ps == [] then []
      else Complaints(ps[..|ps| - 1], requested, now, links) + Complaint(ps[|ps| - 1], requested, now, links)
    }

    /** Each request is answered once: with a selection when its peer is
        connected, else with an error. An automatic selection needs an unpaused
        job, an auto-eligible route and a cadence since the anchor; and these
        suffice. */
    lemma {:induction false} EachTargetOnce(ps: seq<string>, requested: set<string>, now: int, links: map<string, bool>)
      requires forall i, j | 0 <= i < j < |ps| :: ps[i] != ps[j]
      ensures var selected := Choices(ps, requested, now, links);
              && (forall s :: s in selected <==> s.peer in ps && s in Choice(s.peer, requested, now, links))
              && (forall i, j | 0 <= i < j < |selected| :: selected[i].peer != selected[j].peer)
    {
      if ps != [] {
        var rest, last := ps[..|ps| - 1], ps[|ps| - 1];
        EachTargetOnce(rest, requested, now, links);
        assert ps == rest + [last] && last !in rest;
        assert forall s | s in Choices(rest, requested, now, links) :: s.peer in rest;
      }
    }

    lemma {:induction false} EachComplaintOnce(ps: seq<string>, requested: set<string>, now: int, links: map<string, bool>)
      requires forall i, j | 0 <= i < j < |ps| :: ps[i] != ps[j]
      ensures var errors := Complaints(ps, requested, now, links);
              forall e :: e in errors <==>
                (e.PeerNotConnected? || e.AutoTargetStale?) && e.peer in ps && e in Complaint(e.peer, requested, now, links)
    {
      if ps != [] {
        var rest, last := ps[..|ps| - 1], ps[|ps| - 1];
        EachComplaintOnce(rest, requested, now, links);
        assert ps == rest + [last];
      }
    }

    /** What the selection loop has after the first `n` targets. */
    ghost predicate Judged(n: nat, requested: set<string>, now: int, links: map<string, bool>,
                           selected: seq<Selection>, errors: seq<CycleError>)
      reads this`paused, this`outcomes
    {
      && n <= |targets|
      && selected == Choices(targets[..n], requested, now, links)
      && errors == Complaints(targets[..n], requested, now, links)
    }

    lemma NextJudged(n: nat, requested: set<string>, now: int, links: map<string, bool>,
                     selected: seq<Selection>, errors: seq<CycleError>)
      requires n < |targets| && Judged(n, requested, now, links, selected, errors)
      ensures Judged(n + 1, requested, now, links, selected + Choice(targets[n], requested, now, links),
                     errors + Complaint(targets[n], requested, now, links))
    {
      assert targets[..n + 1][..n] == targets[..n];
    }

    lemma AllJudged(requested: set<string>, now: int, links: map<string, bool>,
                    selected: seq<Selection>, errors: seq<CycleError>)
      requires Judged(|targets|, requested, now, links, selected, errors)
      ensures selected == Choices(targets, requested, now, links)
      ensures errors == Complaints(targets, requested, now, links)
    {
      assert targets[..|targets|] == targets;
    }

    /** The body of the selection loop, for one target. */
    method Judge(name: string, requested: set<string>, now: int, links: map<string, bool>)
      returns (chosen: seq<Selection>, complaints: seq<CycleError>)
      ensures chosen == Choice(name, requested, now, links) && complaints == Complaint(name, requested, now, links)
    {
      chosen, complaints := [], [];
      if name in requested {
        if name in links {
          chosen := [Selection(name, Manual)];
        } else {
          complaints := [PeerNotConnected(name)];
        }
      } else if !paused && IsAuto(name) {
        var anchor := Anchor(Outcome(name));
        if name in links && links[name] {
          if anchor.None? || now - anchor.value >= Cadence(name) {
            chosen := [Selection(name, Auto)];
          }
        } else if anchor.Some? && now - anchor.value > 3 * Cadence(name) {
          complaints := [AutoTargetStale(name, (now - anchor.value) / 3600)];
        }
      }
    }

    method JudgeAll(requested: set<string>, now: int, links: map<string, bool>)
      returns (selected: seq<Selection>, errors: seq<CycleError>)
      ensures selected == Choices(targets, requested, now, links)
      ensures errors == Complaints(targets, requested, now, links)
    {
      selected, errors := [], [];
      for n := 0 to |targets|
        invariant Judged(n, requested, now, links, selected, errors)
      {
        NextJudged(n, requested, now, links, selected, errors);
        var chosen, complaints := Judge(targets[n], requested, now, links);
        selected, errors := selected + chosen, errors + complaints;
      }
      AllJudged(requested, now, links, selected, errors);
    }

    /** In the job's own terms: an automatic run of `p` is licensed. */
    ghost predicate AutoLicensed(p: string, requested: set<string>, now: int, links: map<string, bool>)
      reads this`paused, this`outcomes
    {
      var cadence :=
        if p in peers && peers[p].autoInterval.Some? then peers[p].autoInterval.value
        else if interval.Some? then interval.value else 900;
      && p in targets && p !in requested && !paused
      && p in peers && peers[p].auto
      && p in links && links[p]
      && (p in outcomes && outcomes[p].outcome == Some(RunCancelled) && outcomes[p].lastAttempt.Some? ==>
            now >= outcomes[p].lastAttempt.value + cadence)
      && (p in outcomes && outcomes[p].outcome != Some(RunCancelled) && outcomes[p].lastSuccess.Some? ==>
            now >= outcomes[p].lastSuccess.value + cadence)
    }

    /** And: `p` is out of reach of its schedule, since `anchor`, for more than
        three cadences. */
    ghost predicate OverdueSince(p: string, requested: set<string>, now: int, links: map<string, bool>, anchor: int)
      reads this`paused, this`outcomes
    {
      var cadence :=
        if p in peers && peers[p].autoInterval.Some? then peers[p].autoInterval.value
        else if interval.Some? then interval.value else 900;
      && p in targets && p !in requested && !paused
      && p in peers && peers[p].auto
      && (p in links ==> !links[p])
      && p in outcomes
      && (if outcomes[p].outcome == Some(RunCancelled) then outcomes[p].lastAttempt == Some(anchor)
          else outcomes[p].lastSuccess == Some(anchor))
      && now > anchor + 3 * cadence
    }

    lemma SelectionIff(p: string, requested: set<string>, now: int, links: map<string, bool>)
      requires forall i, j | 0 <= i < j < |targets| :: targets[i] != targets[j]
      ensures var selected := Choices(targets, requested, now, links);
              && (Selection(p, Auto) in selected <==> AutoLicensed(p, requested, now, links))
              && (Selection(p, Manual) in selected <==> p in targets && p in requested && p in links)
    {
      EachTargetOnce(targets, requested, now, links);
      assert Selection(p, Auto).peer == p && Selection(p, Manual).peer == p;
    }

    lemma ComplaintIff(p: string, hours: int, requested: set<string>, now: int, links: map<string, bool>)
      requires forall i, j | 0 <= i < j < |targets| :: targets[i] != targets[j]
      ensures var errors := Complaints(targets, requested, now, links);
              && (PeerNotConnected(p) in errors <==> p in targets && p in requested && p !in links)
              && (AutoTargetStale(p, hours) in errors <==>
                  exists anchor :: OverdueSince(p, requested, now, links, anchor) && hours == (now - anchor) / 3600)
              && forall e | e in errors :: e.PeerNotConnected? || e.AutoTargetStale?
    {
      EachComplaintOnce(targets, requested, now, links);
      var anchor := Anchor(Outcome(p));
      if Stale(p, now, links) && p in targets && p !in requested {
        assert OverdueSince(p, requested, now, links, anchor.value);
      }
    }

    /** `links` maps each connected peer to whether its active route is
        auto-eligible. */
    method SelectTargets(now: int, links: map<string, bool>) returns (selected: seq<Selection>, errors: seq<CycleError>)
      requires Valid()
      modifies this`manual
      ensures Valid() && manual == {}
      ensures selected == Choices(targets, old(manual), now, links)
      ensures errors == Complaints(targets, old(manual), now, links)
      ensures forall p :: Selection(p, Auto) in selected <==> AutoLicensed(p, old(manual), now, links)
      ensures forall p :: Selection(p, Manual) in selected <==> p in targets && p in old(manual) && p in links
      ensures forall p :: PeerNotConnected(p) in errors <==> p in targets && p in old(manual) && p !in links
      ensures forall p, hours :: AutoTargetStale(p, hours) in errors <==>
                exists anchor :: OverdueSince(p, old(manual), now, links, anchor) && hours == (now - anchor) / 3600
      ensures forall e | e in errors :: e.PeerNotConnected? || e.AutoTargetStale?
    {
      var requested := manual;
      manual := {};
      selected, errors := JudgeAll(requested, now, links);
      forall p
        ensures Selection(p, Auto) in selected <==> AutoLicensed(p, requested, now, links)
        ensures Selection(p, Manual) in selected <==> p in targets && p in requested && p in links
        ensures PeerNotConnected(p) in errors <==> p in targets && p in requested && p !in links
      {
        SelectionIff(p, requested, now, links);
        ComplaintIff(p, 0, requested, now, links);
      }
      ComplaintIff("", 0, requested, now, links);
      forall p, hours
        ensures AutoTargetStale(p, hours) in errors <==>
                exists anchor :: OverdueSince(p, requested, now, links, anchor) && hours == (now - anchor) / 3600
      {
        ComplaintIff(p, hours, requested, now, links);
      }
    }

    // ---------------------------------------------------------------- sleeping

    /** When an auto peer is due; one without an anchor is due now. */
    function DueAt(peer: string, now: int): (at: int)
      reads this`outcomes
      ensures at <= now <==> Due(Outcome(peer), Cadence(peer), now)
      ensures at > now ==> forall later :: Due(Outcome(peer), Cadence(peer), later) <==> at <= later
    {
      if Anchor(Outcome(peer)).Some? then Anchor(Outcome(peer)).value + Cadence(peer) else now
    }

    /** The due times of the auto peers among `ps`. */
    function Dues(ps: seq<string>, now: int): seq<int>
      reads this`outcomes
    {
      if ps == [] then []
      else Dues(ps[..|ps| - 1], now) + if IsAuto(ps[|ps| - 1]) then [DueAt(ps[|ps| - 1], now)] else []
    }

    method NextWake(now: int, fallback: nat) returns (nap: int)
      requires Valid()
      ensures nap == Nap(Dues(targets, now), now, fallback)
    {
      var earliest: Option<int> := None;
      for n := 0 to |targets|
        invariant earliest == Earliest(Dues(targets[..n], now))
      {
        NextDue(n, now);
        if IsAuto(targets[n]) {
          var dueAt := DueAt(targets[n], now);
          earliest := Some(if earliest.Some? && earliest.value < dueAt then earliest.value else dueAt);
        }
      }
      assert targets[..|targets|] == targets;
      if earliest.None? {
        nap := fallback;
      } else if earliest.value <= now {
        nap := BLOCKED_RETRY;
      } else {
        nap := if earliest.value - now < fallback then earliest.value - now else fallback;
      }
      nap := if nap < SHORTEST_NAP then SHORTEST_NAP else nap;
    }

    lemma NextDue(n: nat, now: int)
      requires n < |targets|
      ensures var dues, next := Dues(targets[..n], now), Dues(targets[..n + 1], now);
              && next == dues + (if IsAuto(targets[n]) then [DueAt(targets[n], now)] else [])
              && Earliest(next) ==
                 if !IsAuto(targets[n]) then Earliest(dues)
                 else
                   var e, d := Earliest(dues), DueAt(targets[n], now);
                   Some(if e.Some? && e.value < d then e.value else d)
    {
      assert targets[..n + 1][..n] == targets[..n];
      var dues, next := Dues(targets[..n], now), Dues(targets[..n + 1], now);
      if IsAuto(targets[n]) {
        assert next[..|next| - 1] == dues;
      } else {
        assert next == dues;
      }
    }

    // -------------------------------------------------------------- one cycle

    method Record(peer: string, reason: Reason, started: int, finished: int, status: RunStatus)
      requires Valid() && started <= finished
      requires forall a | a in History(peer) :: a.finished <= started
      requires reason.Auto? ==> Due(Outcome(peer), Cadence(peer), started)
      modifies this`outcomes, this`history, this`clock
      ensures Valid() && clock == if finished > old(clock) then finished else old(clock)
      ensures Outcome(peer) == Recorded(old(Outcome(peer)), finished, status)
      ensures history == old(history)[peer := old(History(peer)) + [Attempt(reason.Auto?, started, finished, status)]]
      ensures forall p | p != peer :: Outcome(p) == old(Outcome(p))
    {
      ghost var a := Attempt(reason.Auto?, started, finished, status);
      ghost var later := if finished > clock then finished else clock;
      ChroniclesGrow(outcomes, history, clock, peer, a, later);
      outcomes := outcomes[peer := Recorded(Outcome(peer), finished, status)];
      history := history[peer := History(peer) + [a]];
      clock := later;
    }

    /** The outcome that the history in `was` leaves `peer` with. */
    ghost function OutcomeBy(was: map<string, seq<Attempt>>, peer: string): PeerOutcome {
      OutcomeAfter(Seed(peer), HistoryIn(was, peer))
    }

    /** The selection can be attempted in a cycle planned at `started`, when the
        histories were `was`. */
    ghost predicate Startable(was: map<string, seq<Attempt>>, s: Selection, started: int) {
      && (forall a | a in HistoryIn(was, s.peer) :: a.finished <= started)
      && (s.reason.Auto? ==> Due(OutcomeBy(was, s.peer), Cadence(s.peer), started))
    }

    lemma SelectionIsStartable(selected: seq<Selection>, started: int)
      requires Valid() && clock <= started
      requires forall s | s in selected && s.reason.Auto? :: Due(Outcome(s.peer), Cadence(s.peer), started)
      ensures forall k | 0 <= k < |selected| :: Startable(history, selected[k], started)
    {
      forall k | 0 <= k < |selected|
        ensures Startable(history, selected[k], started)
      {
        var p := selected[k].peer;
        assert selected[k] in selected;
        assert ChronicledAt(outcomes, history, clock, p);
      }
    }

    lemma NextIsStartable(was: map<string, seq<Attempt>>, selected: seq<Selection>, beats: Beats, started: int, n: nat)
      requires Valid() && n < |selected| && DistinctPeers(selected) && Progress(was, history, selected, beats, dryRun, started, n)
      requires Startable(was, selected[n], started)
      ensures forall a | a in History(selected[n].peer) :: a.finished <= started
      ensures selected[n].reason.Auto? ==> Due(Outcome(selected[n].peer), Cadence(selected[n].peer), started)
    {
      var p := selected[n].peer;
      MadeOnce(selected, beats, dryRun, started, n, n);
      assert ChronicledAt(outcomes, history, clock, p);
      assert ProgressAt(was, history, selected, beats, dryRun, started, n, p);
      assert HistoryIn(history, p) == HistoryIn(was, p);
    }

    /** Replicate to one peer and record how that went; requests keep coming in. */
    method AttemptNext(selected: seq<Selection>, started: int, time: int, beats: Beats, n: nat,
                       ghost was: map<string, seq<Attempt>>) returns (finished: int)
      requires Valid() && n < |selected| && DistinctPeers(selected) && clock <= time
      requires time == FinishedAt(beats, started, n) >= started
      requires Startable(was, selected[n], started) && Progress(was, history, selected, beats, dryRun, started, n)
      modifies this`manual, this`outcomes, this`history, this`clock
      ensures Valid() && clock <= finished == FinishedAt(beats, started, n + 1) && started <= finished
      ensures manual == old(manual) + beats(n).requests * Elements(targets)
      ensures Progress(was, history, selected, beats, dryRun, started, n + 1)
    {
      var s, beat := selected[n], beats(n);
      finished := time + beat.elapsed;
      NextIsStartable(was, selected, beats, started, n);
      Record(s.peer, s.reason, started, finished, Classify(beat.cancelledDuring, dryRun, beat.errors));
      ProgressGrows(was, old(history), history, selected, beats, dryRun, started, n);
      manual := manual + (set p | p in beat.requests && p in targets);
    }

    /** Attempt the selected peers in turn until the cycle is found cancelled,
        exactly those that `Attempted` says; a selected peer behind a
        cancellation is not attempted, and its request is gone. */
    method RunCycle(selected: seq<Selection>, started: int, beats: Beats) returns (done: nat, finished: int)
      requires Valid() && clock <= started && DistinctPeers(selected)
      requires forall s | s in selected && s.reason.Auto? :: Due(Outcome(s.peer), Cadence(s.peer), started)
      modifies this`manual, this`outcomes, this`history, this`clock
      ensures Valid() && clock <= finished
      ensures done <= |selected| && forall k: nat | k < |selected| :: k < done <==> Attempted(beats, k)
      ensures finished == FinishedAt(beats, started, done) >= started
      ensures manual == old(manual) + RequestedDuring(beats, done) * Elements(targets)
      ensures Progress(old(history), history, selected, beats, dryRun, started, done)
    {
      SelectionIsStartable(selected, started);
      ghost var was := history;
      assert forall p :: ProgressAt(was, was, selected, beats, dryRun, started, 0, p);
      var cancelled := false;
      done, finished := 0, started;
      while done < |selected|
        invariant Valid() && done <= |selected| && clock <= finished
        invariant finished == FinishedAt(beats, started, done) >= started
        invariant manual == old(manual) + RequestedDuring(beats, done) * Elements(targets)
        invariant forall k: nat | k < done :: Attempted(beats, k)
        invariant cancelled <==> CancelledIn(beats, done)
        invariant Progress(was, history, selected, beats, dryRun, started, done)
      {
        var beat := beats(done);
        cancelled := cancelled || beat.cancelledBefore;
        StopsHere(beats, done, cancelled);
        if cancelled {
          break;
        }
        cancelled := beat.cancelledDuring;
        finished := AttemptNext(selected, started, finished, beats, done, was);
        done := done + 1;
      }
    }

    lemma ChosenAreDue(requested: set<string>, now: int, links: map<string, bool>)
      requires forall i, j | 0 <= i < j < |targets| :: targets[i] != targets[j]
      ensures var selected := Choices(targets, requested, now, links);
              && DistinctPeers(selected)
              && forall s | s in selected && s.reason.Auto? :: Due(Outcome(s.peer), Cadence(s.peer), now)
    {
      EachTargetOnce(targets, requested, now, links);
    }

    /** A turn that selects nobody moves nothing. */
    lemma NothingMade(h: map<string, seq<Attempt>>, beats: Beats, now: int)
      ensures DistinctPeers([]) && Progress(h, h, [], beats, dryRun, now, 0)
    {
      assert forall p :: ProgressAt(h, h, [], beats, dryRun, now, 0, p);
    }

    /** One turn of the scheduling loop; `done` of the selected peers are
        attempted. `Valid` carries the whole history along. */
    method RunAndRecord(now: int, links: map<string, bool>, beats: Beats)
      returns (selected: seq<Selection>, errors: seq<CycleError>, done: nat, finished: int)
      requires Valid() && clock <= now
      modifies this`manual, this`outcomes, this`history, this`clock
      ensures Valid() && now <= finished && clock <= finished
      ensures selected == old(Choices(targets, manual, now, links))
      ensures errors == old(Complaints(targets, manual, now, links))
      ensures done <= |selected| && forall k: nat | k < |selected| :: k < done <==> Attempted(beats, k)
      ensures manual == RequestedDuring(beats, done) * Elements(targets)
      ensures DistinctPeers(selected) && Progress(old(history), history, selected, beats, dryRun, now, done)
      ensures paused && old(manual) == {} ==> selected == [] && unchanged(this)
    {
      NothingMade(history, beats, now);
      if paused && manual == {} {
        PausedIsIdle(targets, now, links);
        return [], [], 0, now;
      }
      ghost var requested := manual;
      selected, errors := SelectTargets(now, links);
      if selected == [] && errors == [] {
        return selected, errors, 0, now;
      }
      ChosenAreDue(requested, now, links);
      done, finished := RunCycle(selected, now, beats);
    }

    /** Any run of requests, pauses and turns, each turn some time after the one
        before: every peer's automatic attempts stay spaced. */
    method RunTurns(turns: seq<Turn>, start: int) returns (time: int)
      requires Valid() && clock <= start
      modifies this`paused, this`manual, this`outcomes, this`history, this`clock
      ensures Valid() && clock <= time
      ensures forall p :: Spaced(Seed(p), Cadence(p), History(p)) && old(History(p)) <= History(p)
    {
      time := start;
      for n := 0 to |turns|
        invariant Valid() && clock <= time
        invariant forall p :: old(History(p)) <= History(p)
      {
        match turns[n] {
          case Request(peer) =>
            var ok := RequestPush(peer);
          case SetPaused(on) =>
            paused := on;
          case Tick(wait, links, beats) =>
            var selected, errors, done;
            ghost var was := history;
            var time' := time + wait;
            selected, errors, done, time := RunAndRecord(time', links, beats);
            forall p
              ensures HistoryIn(was, p) <= History(p)
            {
              assert ProgressAt(was, history, selected, beats, dryRun, time', done, p);
            }
        }
      }
      HistoriesAreSpaced();
    }

    lemma HistoriesAreSpaced()
      requires Valid()
      ensures forall p :: Spaced(Seed(p), Cadence(p), History(p))
    {
      forall p
        ensures Spaced(Seed(p), Cadence(p), History(p))
      {
        assert ChronicledAt(outcomes, history, clock, p);
        ScheduledIsSpaced(Seed(p), Cadence(p), History(p));
      }
    }

    lemma {:induction false} PausedIsIdle(ps: seq<string>, now: int, links: map<string, bool>)
      requires paused
      ensures Choices(ps, {}, now, links) == [] && Complaints(ps, {}, now, links) == []
    {
      if ps != [] {
        PausedIsIdle(ps[..|ps| - 1], now, links);
      }
    }
  }

  // ------------------------------------------------------------------ two jobs

  /** A job with an unreachable peer that never synced oversleeps the other one,
      due in a minute, by four. */
  method OversleepingJob(now: int) returns (job: PushJob, nap: int)
    ensures fresh(job) && job.Valid() && "b" in job.targets && job.IsAuto("b") && job.DueAt("b", now) == now + 60
    ensures nap == 300
  {
    var auto := PeerConfig(true, None);
    var synced := PeerOutcome(Some(now + 60 - FALLBACK_POLL), Some(now + 60 - FALLBACK_POLL), Some(RunOk));
    job := new PushJob(["a", "b"], map["a" := auto, "b" := auto], None, false, map["b" := synced]);
    nap := job.NextWake(now, FALLBACK_POLL);
    assert ["a", "b"][..1] == ["a"] && ["a", "b"][..1][..0] == [];
    assert job.Dues(["a"], now) == [now];
    assert job.Dues(["a", "b"], now) == [now, now + 60];
    NeverSyncedPeerHidesTheNext(now);
  }

  /** A request that is taken, selected and never attempted: the cycle is
      cancelled before it comes to its first peer. */
  method DroppedRequest(now: nat, beats: Beats) returns (job: PushJob, selected: seq<Selection>)
    requires beats(0).cancelledBefore
    ensures fresh(job) && job.Valid() && selected == [Selection("a", Manual)]
    ensures job.manual == {} && job.History("a") == []
  {
    job := new PushJob(["a"], map[], None, false, map[]);
    var accepted := job.RequestPush("a");
    var links := map["a" := true];
    assert ["a"][..0] == [];
    assert job.Choices(["a"], {"a"}, now, links) == [Selection("a", Manual)];
    assert {} + {"a"} == {"a"};
    var errors, done, finished;
    selected, errors, done, finished := job.RunAndRecord(now, links, beats);
    assert !Attempted(beats, 0);
    assert done == 0 && ProgressAt(map[], job.history, selected, beats, false, now, 0, "a");
  }
}
