/**
 The reconnect loop of one peer (`daemon/src/peer/reconnect.rs`) and the map it
 publishes to (`daemon/src/peer/state.rs`).
 */
module PeerLink {
  import opened Wrappers

  datatype RouteConfig = RouteConfig(name: string, sshTarget: string, auto: bool)

  datatype Health = Unknown | Up | Down(error: string)

  datatype RouteState = RouteState(name: string, sshTarget: string, auto: bool, health: Health)

  datatype Status = Connected | Reconnecting | Failed(lastError: string)

  /** A session over one route's target. */
  datatype Link = Link(sshTarget: string)

  datatype PeerEntry = PeerEntry(name: string, status: Status, active: Option<string>, routes: seq<RouteState>,
                                 link: Option<Link>)

  function IndexOf(routes: seq<RouteState>, name: string): (r: Option<nat>)
    ensures r.Some? ==> r.value < |routes| && routes[r.value].name == name
    ensures r.Some? ==> forall i | 0 <= i < r.value :: routes[i].name != name
    ensures r.None? ==> forall i | 0 <= i < |routes| :: routes[i].name != name
  {
    if routes == [] then None
    else if routes[0].name == name then Some(0)
    else
      match IndexOf(routes[1..], name)
      case None => None
      case Some(i) => Some(i + 1)
  }

  /** The first route carrying the active name. */
  function ActiveRoute(e: PeerEntry): Option<RouteState> {
    if e.active.None? || IndexOf(e.routes, e.active.value).None? then None
    else Some(e.routes[IndexOf(e.routes, e.active.value).value])
  }

  /** What every reader of an entry may rely on. */
  ghost predicate Coherent(e: PeerEntry) {
    && (e.status.Connected? <==> e.link.Some?)
    && (e.link.Some? <==> ActiveRoute(e).Some?)
    && (forall i | 0 <= i < |e.routes| ::
          e.routes[i].health.Up? <==> ActiveRoute(e).Some? && e.routes[i].name == e.active.value)
    && (e.status.Failed? ==>
          && (forall i | 0 <= i < |e.routes| :: e.routes[i].health.Down?)
          && (e.routes != [] ==> e.status.lastError == e.routes[|e.routes| - 1].health.error))
    && (e.link.Some? ==> e.link.value == Link(ActiveRoute(e).value.sshTarget) && ActiveRoute(e).value.health.Up?)
  }

  /** A switch between two connected entries only ever goes up the ranking. */
  ghost predicate ClimbsRanking(a: PeerEntry, b: PeerEntry) {
    a.status.Connected? && b.status.Connected? && a.active.Some? && b.active.Some? ==>
      && IndexOf(a.routes, a.active.value).Some? && IndexOf(b.routes, b.active.value).Some?
      && IndexOf(b.routes, b.active.value).value < IndexOf(a.routes, a.active.value).value
  }

  /** The `k`-th entry of a log climbs from the one before it. */
  ghost predicate ClimbsAt(log: seq<PeerEntry>, k: nat) {
    0 < k < |log| ==> ClimbsRanking(log[k - 1], log[k])
  }

  /** Entries were only added, and none while over the best route. */
  ghost predicate Grew(was: seq<PeerEntry>, now: seq<PeerEntry>, active: nat) {
    was <= now && (active == 0 ==> was == now)
  }

  lemma GrewOn(was: seq<PeerEntry>, mid: seq<PeerEntry>, now: seq<PeerEntry>, start: nat, active: nat)
    requires Grew(was, mid, start) && Grew(mid, now, active) && (start == 0 ==> active == 0)
    ensures Grew(was, now, start)
  {
  }

  // ----------------------------------------------------------------- backoff

  const U32_MAX := 0xFFFF_FFFF

  function Pow2(n: nat): nat {
    if n == 0 then 1 else 2 * Pow2(n - 1)
  }

  function Min(a: nat, b: nat): nat {
    if a < b then a else b
  }

  function NextDelay(attempt: nat): nat {
    Min(Pow2(Min(attempt, 6)), 60)
  }

  /** One second at first, then doubling until it stays at a minute. */
  lemma DelayDoublesToAMinute(attempt: nat)
    ensures NextDelay(0) == 1
    ensures NextDelay(attempt + 1) == Min(2 * NextDelay(attempt), 60)
  {
    assert Pow2(5) == 32 && Pow2(4) == 16 && Pow2(3) == 8 && Pow2(2) == 4 && Pow2(1) == 2;
  }

  /** How many entries at the end of the log report failure. */
  function Failures(log: seq<PeerEntry>): nat {
    if log == [] || !log[|log| - 1].status.Failed? then 0 else 1 + Failures(log[..|log| - 1])
  }

  // ------------------------------------------------------------ surroundings

  /** What dialling a route ends in; `Stopped`: the loop is cancelled first. */
  datatype Dial = Connects | Refused(error: string) | Stopped

  type Dials = int -> Dial

  /** What the end of one sleep meets: a send in flight, the answer to a probe,
      and each route when it is dialled. */
  datatype Tick = Tick(streaming: bool, alive: bool, error: string, dials: Dials) {
    predicate LinkFails() {
      !streaming && !alive
    }
  }

  /** Indexed by how many sleeps are left before the loop is cancelled. */
  type Ticks = int -> Tick

  /** The first of `limit` routes that does not refuse. */
  function FirstAnswer(dials: Dials, limit: nat): (k: nat)
    ensures k <= limit && forall i | 0 <= i < k :: dials(i).Refused?
    ensures k < limit ==> !dials(k).Refused?
  {
    if limit == 0 then 0
    else
      var k := FirstAnswer(dials, limit - 1);
      if k < limit - 1 || !dials(limit - 1).Refused? then k else limit
  }

  /** The first route that answers lets the loop in. */
  predicate Answers(dials: Dials, limit: nat) {
    FirstAnswer(dials, limit) < limit && dials(FirstAnswer(dials, limit)).Connects?
  }

  predicate Stops(dials: Dials, limit: nat) {
    FirstAnswer(dials, limit) < limit && dials(FirstAnswer(dials, limit)).Stopped?
  }

  /** The counter of sleeps, 32 bits wide. */
  function Ticked(n: nat): nat {
    n % (U32_MAX + 1)
  }

  lemma NextTick(n: nat)
    ensures Ticked(Ticked(n) + 1) == Ticked(n + 1)
  {
  }

  /** The active route after a tick, if the link is still up: every fourth time
      the better routes are tried, unless a send is in flight. */
  function ActiveAfter(active: nat, ticks: nat, x: Tick): Option<nat> {
    if x.streaming then Some(active)
    else if !x.alive then None
    else if ticks % 4 == 0 && Answers(x.dials, active) then Some(FirstAnswer(x.dials, active))
    else Some(active)
  }

  /** The active route `n` sleeps after `start` was connected with `waits` left,
      if the link has held. */
  function ActiveAt(start: nat, waits: nat, sky: Ticks, n: nat): Option<nat> {
    if n == 0 then Some(start)
    else
      match ActiveAt(start, waits, sky, n - 1)
      case None => None
      case Some(active) => ActiveAfter(active, Ticked(n), sky(waits - n))
  }

  lemma NextActive(start: nat, waits: nat, sky: Ticks, n: nat, left: nat, active: nat)
    requires ActiveAt(start, waits, sky, n) == Some(active) && n + 1 + left == waits
    ensures ActiveAt(start, waits, sky, n + 1) == ActiveAfter(active, Ticked(n + 1), sky(left))
  {
  }

  /** The link holds exactly until the first probe that fails. */
  lemma {:induction false} HoldsIff(start: nat, waits: nat, sky: Ticks, n: nat)
    requires n <= waits
    ensures ActiveAt(start, waits, sky, n).Some? <==> forall m | waits - n <= m < waits :: !sky(m).LinkFails()
  {
    if n > 0 {
      HoldsIff(start, waits, sky, n - 1);
    }
  }

  /** No probe fails while fewer than `waits` sleeps are left. */
  ghost predicate Steady(sky: Ticks, waits: nat) {
    forall n | 0 < n < waits :: !sky(n).LinkFails()
  }

  /** No route answers in the last `waits` sleeps. */
  ghost predicate NobodyAnswers(sky: Ticks, waits: nat, limit: nat) {
    forall n | 0 < n <= waits :: FirstAnswer(sky(n).dials, limit) == limit
  }

  /** Nothing but the end of the last sleep cancels the loop. */
  ghost predicate NeverStopped(sky: Ticks) {
    forall n :: forall k :: !sky(n).dials(k).Stopped?
  }

  lemma NeverStops(sky: Ticks, n: int, limit: nat)
    ensures NeverStopped(sky) ==> !Stops(sky(n).dials, limit)
  {
  }

  // ------------------------------------------------------------ shared state

  class PeersState {
    var entries: map<string, PeerEntry>
    var changed: nat
    ghost var log: seq<PeerEntry>

    constructor ()
      ensures entries == map[] && log == [] && changed == 0
    {
      entries, changed, log := map[], 0, [];
    }

    function Get(name: string): Option<PeerEntry>
      reads this`entries
    {
      if name in entries then Some(entries[name]) else None
    }

    method Publish(e: PeerEntry)
      modifies this
      ensures Get(e.name) == Some(e) && forall n | n != e.name :: Get(n) == old(Get(n))
      ensures log == old(log) + [e]
      ensures changed == (old(changed) + 1) % 0x1_0000_0000_0000_0000
    {
      entries := entries[e.name := e];
      changed := (changed + 1) % 0x1_0000_0000_0000_0000;
      log := log + [e];
    }
  }

  class Reconnector {
    const name: string
    const routes: seq<RouteConfig>
    const peers: PeersState
    var states: seq<RouteState>
    var attempt: nat

    constructor (name: string, routes: seq<RouteConfig>, peers: PeersState)
      requires forall i, j | 0 <= i < j < |routes| :: routes[i].name != routes[j].name
      requires peers.log == []
      ensures this.name == name && this.routes == routes && this.peers == peers
      ensures Valid() && AllDown() && CountsFailures()
    {
      this.name, this.routes, this.peers := name, routes, peers;
      states := seq(|routes|, i requires 0 <= i < |routes| =>
        RouteState(routes[i].name, routes[i].sshTarget, routes[i].auto, Unknown));
      attempt := 0;
    }

    ghost predicate Mirrors()
      reads this`states
    {
      && (forall i, j | 0 <= i < j < |routes| :: routes[i].name != routes[j].name)
      && |states| == |routes|
      && forall i | 0 <= i < |routes| ::
           states[i].name == routes[i].name && states[i].sshTarget == routes[i].sshTarget && states[i].auto == routes[i].auto
    }

    /** Every entry ever published is coherent, and switches climb. */
    ghost predicate Valid()
      reads this`states, peers
    {
      && Mirrors()
      && (forall e | e in peers.log :: Coherent(e) && e.name == name)
      && forall k: nat :: ClimbsAt(peers.log, k)
    }

    /** The retry counter is the number of failures since the last connection. */
    ghost predicate CountsFailures()
      reads this`attempt, peers
    {
      attempt == Min(Failures(peers.log), U32_MAX)
    }

    ghost predicate AllDown()
      reads this`states
    {
      forall i | 0 <= i < |states| :: !states[i].health.Up?
    }

    ghost predicate OnlyUp(active: nat)
      reads this`states
    {
      active < |states| && forall i | 0 <= i < |states| :: states[i].health.Up? <==> i == active
    }

    /** The last entry announces route `active`. */
    ghost predicate Announced(active: nat)
      reads peers
    {
      && peers.log != []
      && var e := peers.log[|peers.log| - 1];
         e.status.Connected? && e.active.Some? && IndexOf(e.routes, e.active.value) == Some(active)
    }

    ghost predicate Unannounced()
      reads peers
    {
      peers.log != [] ==> !peers.log[|peers.log| - 1].status.Connected?
    }

    /** Try the first `limit` routes in order. `cancelled` tells a stop from a
        failure on all of them. */
    method ConnectRanked(limit: nat, dials: Dials) returns (r: Option<(nat, Link)>, cancelled: bool)
      requires Mirrors() && limit <= |routes|
      modifies this`states
      ensures Mirrors()
      ensures r.Some? <==> Answers(dials, limit)
      ensures r.Some? ==> r.value == (FirstAnswer(dials, limit), Link(routes[FirstAnswer(dials, limit)].sshTarget))
      ensures r.Some? ==> states[FirstAnswer(dials, limit)].health.Up?
      ensures cancelled <==> Stops(dials, limit)
      ensures forall i | 0 <= i < FirstAnswer(dials, limit) :: states[i].health == Down(dials(i).error)
      ensures forall i | FirstAnswer(dials, limit) <= i < |routes| && (r.Some? ==> i != FirstAnswer(dials, limit)) ::
                states[i] == old(states[i])
    {
      ghost var k := FirstAnswer(dials, limit);
      for idx := 0 to limit
        invariant Mirrors() && idx <= k
        invariant forall i | 0 <= i < idx :: states[i].health == Down(dials(i).error)
        invariant forall i | idx <= i < |routes| :: states[i] == old(states[i])
      {
        match dials(idx) {
          case Stopped =>
            return None, true;
          case Connects =>
            states := states[idx := states[idx].(health := Up)];
            return Some((idx, Link(routes[idx].sshTarget))), false;
          case Refused(error) =>
            states := states[idx := states[idx].(health := Down(error))];
        }
      }
      return None, false;
    }

    lemma IndexOfRoute(active: nat)
      requires Mirrors() && active < |routes|
      ensures IndexOf(states, routes[active].name) == Some(active)
    {
    }

    method PublishConnected(active: nat, link: Link)
      requires Valid() && OnlyUp(active) && link == Link(routes[active].sshTarget)
      requires Unannounced() || exists worse :: Announced(worse) && active < worse
      modifies peers
      ensures Valid() && Announced(active) && Failures(peers.log) == 0
      ensures |peers.log| == |old(peers.log)| + 1 && old(peers.log) <= peers.log
    {
      IndexOfRoute(active);
      var e := PeerEntry(name, Connected, Some(routes[active].name), states, Some(link));
      assert Coherent(e);
      peers.Publish(e);
      forall k: nat
        ensures ClimbsAt(peers.log, k)
      {
        assert ClimbsAt(old(peers.log), k);
      }
    }

    method PublishDown(status: Status)
      requires Valid() && AllDown() && !status.Connected?
      requires status.Failed? ==>
                 && (forall i | 0 <= i < |states| :: states[i].health.Down?)
                 && (states != [] ==> status.lastError == states[|states| - 1].health.error)
      modifies peers
      ensures Valid() && Unannounced()
      ensures |peers.log| == |old(peers.log)| + 1 && old(peers.log) <= peers.log
      ensures peers.log[|peers.log| - 1].status == status
      ensures Failures(peers.log) == if status.Failed? then old(Failures(peers.log)) + 1 else 0
    {
      var e := PeerEntry(name, status, None, states, None);
      peers.Publish(e);
      assert peers.log[..|peers.log| - 1] == old(peers.log);
      forall k: nat
        ensures ClimbsAt(peers.log, k)
      {
        assert ClimbsAt(old(peers.log), k);
      }
    }

    /** Connected over `active`, and announced. */
    ghost predicate ConnectedOver(active: nat)
      reads this`states, peers
    {
      Valid() && OnlyUp(active) && Announced(active) && Failures(peers.log) == 0
    }

    /** The link is gone, and that is published. */
    ghost predicate Disconnected()
      reads this`states, peers
    {
      Valid() && AllDown() && Unannounced() && Failures(peers.log) == 0
    }

    /** The probe failed. */
    method Lose(active: nat, error: string)
      requires ConnectedOver(active)
      modifies this`states, peers
      ensures Disconnected() && active < |states| && states[active].health == Down(error)
      ensures |peers.log| == |old(peers.log)| + 1 && old(peers.log) <= peers.log
    {
      states := states[active := states[active].(health := Down(error))];
      PublishDown(Reconnecting);
    }

    /** Move to the first better route that answers. */
    method Climb(active: nat, dials: Dials) returns (next: nat, stopped: bool)
      requires ConnectedOver(active)
      modifies this`states, peers
      ensures next == if Answers(dials, active) then FirstAnswer(dials, active) else active
      ensures ConnectedOver(next) && old(peers.log) <= peers.log
      ensures |peers.log| == |old(peers.log)| + if next == active then 0 else 1
      ensures next == active ==> peers.log == old(peers.log)
      ensures stopped ==> Stops(dials, active)
    {
      next := active;
      var better;
      better, stopped := ConnectRanked(active, dials);
      if better.Some? {
        var (idx, link) := better.value;
        states := states[active := states[active].(health := Unknown)];
        assert Announced(active) && idx < active;
        PublishConnected(idx, link);
        next := idx;
      }
    }

    /** One sleep on a connected route, and what follows it: the probe, and every
        fourth time a try of the better routes. */
    method Rest(active: nat, ticks: nat, x: Tick) returns (next: Option<nat>, stopped: bool)
      requires ConnectedOver(active)
      modifies this`states, peers
      ensures old(peers.log) <= peers.log
      ensures next == ActiveAfter(active, ticks, x)
      ensures next.Some? ==> ConnectedOver(next.value)
      ensures next.None? ==> Disconnected() && active < |states| && states[active].health == Down(x.error)
      ensures |peers.log| == |old(peers.log)| + if next == Some(active) then 0 else 1
      ensures next.Some? ==> Grew(old(peers.log), peers.log, active)
      ensures stopped ==> next.Some? && Stops(x.dials, active)
    {
      if x.streaming {
        return Some(active), false;
      }
      if !x.alive {
        Lose(active, x.error);
        return None, false;
      }
      next, stopped := Some(active), false;
      if active > 0 && ticks % 4 == 0 {
        var better;
        better, stopped := Climb(active, x.dials);
        next := Some(better);
      }
    }

    /** Stay on a connected route: probe it, climb to better ones. `waits` is
        how many sleeps are left before the loop is cancelled. Returns with the
        link down as soon as a probe fails, or else cancelled. */
    method Park(start: nat, waits: nat, sky: Ticks) returns (left: nat)
      requires ConnectedOver(start) && waits > 0
      modifies this`states, peers
      ensures left < waits && old(peers.log) <= peers.log
      ensures if left > 0 then Disconnected() && sky(left).LinkFails() else Valid() && Grew(old(peers.log), peers.log, start)
      ensures left > 0 ==> ActiveAt(start, waits, sky, waits - left - 1).Some?
      ensures NeverStopped(sky) && left == 0 ==>
                var active := ActiveAt(start, waits, sky, waits - 1);
                active.Some? && ConnectedOver(active.value)
    {
      var active, ticks := start, 0;
      ghost var n, was := 0, peers.log;
      left := waits;
      while true
        invariant ConnectedOver(active) && Grew(was, peers.log, start) && (start == 0 ==> active == 0)
        invariant 0 < left && n + left == waits && ticks == Ticked(n)
        invariant ActiveAt(start, waits, sky, n) == Some(active)
        decreases left
      {
        left := left - 1;
        if left == 0 {
          return;
        }
        NextTick(n);
        NextActive(start, waits, sky, n, left, active);
        NeverStops(sky, left, active);
        n, ticks := n + 1, Ticked(ticks + 1);
        ghost var mid := peers.log;
        var next, stopped := Rest(active, ticks, sky(left));
        if next.None? {
          return;
        }
        GrewOn(was, mid, peers.log, start, active);
        if stopped {
          left := 0;
          return;
        }
        active := next.value;
      }
    }

    /** The error of the lowest-ranked route that failed. */
    method LastError() returns (error: string)
      ensures forall i | 0 <= i < |states| && states[i].health.Down? && (forall j | i < j < |states| :: !states[j].health.Down?) ::
                error == states[i].health.error
    {
      var i := |states|;
      while i > 0
        invariant 0 <= i <= |states| && forall j | i <= j < |states| :: !states[j].health.Down?
      {
        i := i - 1;
        if states[i].health.Down? {
          return states[i].health.error;
        }
      }
      return "no routes attempted";
    }

    /** Announce the route that answered, and park on it. */
    method AnnounceAndPark(best: nat, link: Link, left: nat, sky: Ticks) returns (after: nat)
      requires Valid() && OnlyUp(best) && link == Link(routes[best].sshTarget) && Unannounced() && left > 0
      modifies this, peers
      ensures after < left && old(peers.log) < peers.log && peers.log[|old(peers.log)|].status.Connected?
      ensures attempt == 0 && if after > 0 then Disconnected() else Valid()
      ensures NeverStopped(sky) ==> (after == 0 <==> Steady(sky, left))
      ensures best == 0 && after == 0 ==> |peers.log| == |old(peers.log)| + 1
    {
      PublishConnected(best, link);
      attempt := 0;
      assert ConnectedOver(best);
      after := Park(best, left, sky);
      ParkedUntil(best, left, after, sky);
    }

    /** Announce that no route answered. */
    method AnnounceFailure()
      requires Valid() && Unannounced() && CountsFailures() && forall i | 0 <= i < |states| :: states[i].health.Down?
      modifies this, peers
      ensures Valid() && AllDown() && Unannounced() && CountsFailures()
      ensures |peers.log| == |old(peers.log)| + 1 && old(peers.log) <= peers.log
      ensures peers.log[|old(peers.log)|].status.Failed?
    {
      var error := LastError();
      PublishDown(Failed(error));
      var delay := NextDelay(attempt);
      attempt := Min(attempt + 1, U32_MAX);
    }

    /** One round of the loop: dial, and then park or sleep. */
    method Round(left: nat, sky: Ticks) returns (after: nat, stopped: bool)
      requires Valid() && AllDown() && Unannounced() && CountsFailures() && left > 0
      modifies this, peers
      ensures Valid() && old(peers.log) <= peers.log
      ensures stopped <==> Stops(sky(left).dials, |routes|)
      ensures stopped ==> peers.log == old(peers.log)
      ensures !stopped ==> after < left && |peers.log| > |old(peers.log)|
      ensures !stopped && after > 0 ==> AllDown() && Unannounced() && CountsFailures()
      ensures !stopped && !Answers(sky(left).dials, |routes|) ==>
                after == left - 1 && |peers.log| == |old(peers.log)| + 1 && peers.log[|old(peers.log)|].status.Failed?
      ensures Answers(sky(left).dials, |routes|) ==> peers.log[|old(peers.log)|].status.Connected?
      ensures NeverStopped(sky) && Answers(sky(left).dials, |routes|) ==>
                (after == 0 <==> Steady(sky, left))
      ensures Answers(sky(left).dials, |routes|) && FirstAnswer(sky(left).dials, |routes|) == 0 && after == 0 ==>
                |peers.log| == |old(peers.log)| + 1
    {
      after := left;
      var found, cancelled := ConnectRanked(|routes|, sky(left).dials);
      if found.Some? {
        after := AnnounceAndPark(found.value.0, found.value.1, left, sky);
        return after, false;
      }
      if cancelled {
        return after, true;
      }
      AnnounceFailure();
      return left - 1, false;
    }

    /** The loop ends only when it is cancelled. While no route answers it
        publishes one failure a sleep; the first time one does it publishes a
        connection, and if that is the best route and its link does not fail,
        nothing more. */
    method RunForPeer(waits: nat, sky: Ticks) returns (left: nat)
      requires Valid() && AllDown() && peers.log == [] && attempt == 0
      modifies this, peers
      ensures Valid() && left <= waits
      ensures left > 0 ==> Stops(sky(left).dials, |routes|)
      ensures left == 0 && NobodyAnswers(sky, waits, |routes|) ==>
                |peers.log| == waits && forall e | e in peers.log :: e.status.Failed?
      ensures waits > 0 && Answers(sky(waits).dials, |routes|) ==> peers.log != [] && peers.log[0].status.Connected?
      ensures NeverStopped(sky) && waits > 0 && Steady(sky, waits)
              && Answers(sky(waits).dials, |routes|) && FirstAnswer(sky(waits).dials, |routes|) == 0 ==>
                |peers.log| == 1
    {
      left := waits;
      while left > 0
        invariant Valid() && left <= waits
        invariant left > 0 ==> AllDown() && Unannounced() && CountsFailures()
        invariant left == waits ==> peers.log == []
        invariant NobodyAnswers(sky, waits, |routes|) ==>
                    |peers.log| == waits - left && forall e | e in peers.log :: e.status.Failed?
        invariant left < waits && Answers(sky(waits).dials, |routes|) ==>
                    peers.log != [] && peers.log[0].status.Connected?
        invariant left < waits && NeverStopped(sky) && Steady(sky, waits)
                  && Answers(sky(waits).dials, |routes|) && FirstAnswer(sky(waits).dials, |routes|) == 0 ==>
                    left == 0 && |peers.log| == 1
      {
        var after, stopped := Round(left, sky);
        if stopped {
          return;
        }
        left := after;
      }
    }
  }

  /** Where the link fails first is where parking ends. */
  lemma ParkedUntil(start: nat, waits: nat, left: nat, sky: Ticks)
    requires left < waits
    requires left > 0 ==> sky(left).LinkFails()
    requires left == 0 ==> !NeverStopped(sky) || ActiveAt(start, waits, sky, waits - 1).Some?
    ensures NeverStopped(sky) ==> (left == 0 <==> Steady(sky, waits))
  {
    HoldsIff(start, waits, sky, waits - 1);
  }

  // ----------------------------------------------------------- climbing ends

  /** A run of entries without a disconnect is no longer than the ranking. */
  lemma {:induction false} SwitchesAreBounded(run: seq<PeerEntry>, routes: nat)
    requires run != [] && forall e | e in run :: Coherent(e) && e.status.Connected? && |e.routes| == routes
    requires forall k | 0 < k < |run| :: ClimbsRanking(run[k - 1], run[k])
    ensures run[|run| - 1].active.Some? && IndexOf(run[|run| - 1].routes, run[|run| - 1].active.value).Some?
    ensures |run| + IndexOf(run[|run| - 1].routes, run[|run| - 1].active.value).value <= routes
  {
    var last := run[|run| - 1];
    assert last in run && Coherent(last);
    if |run| > 1 {
      var rest := run[..|run| - 1];
      assert forall e | e in rest :: e in run;
      SwitchesAreBounded(rest, routes);
      assert ClimbsRanking(run[|run| - 2], last) && run[|run| - 2] in run;
    }
  }
}
