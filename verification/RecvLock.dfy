/**
 Admission to a receive target (`daemon/src/stdinserver/recv_lock.rs`): receive
 channels (`drive` in `daemon/src/stdinserver/recv.rs`) and discard requests
 (`discard_partial_recv` in `daemon/src/stdinserver/control.rs`), each its own
 process, interleaved in any order and dying at any point. A lock is taken
 without waiting and falls with its process.
 */
module RecvLock {
  import opened Wrappers

  datatype Kind = Channel(discard: bool) | DiscardRpc

  /** `Cleared`: the abort is done. `Orphaned`: the process died but its
      `zfs recv` child did not. */
  datatype Phase = Waiting | Admitted | Cleared | Ingesting | Refused | Gone | Orphaned

  datatype Process = Process(dataset: string, kind: Kind, phase: Phase) {
    predicate Holding() {
      phase.Admitted? || phase.Cleared? || phase.Ingesting?
    }
  }

  datatype Act = Abort | Start(discard: bool) | End(landed: bool)

  /** One change to the receive state of a dataset. */
  datatype Op = Op(dataset: string, process: nat, act: Act)

  datatype State = State(processes: seq<Process>, locks: map<string, nat>, log: seq<Op>)

  datatype Event =
    | Arrive(dataset: string, kind: Kind)
    | Acquire(i: nat)
    | AbortPartial(i: nat)
    | StartReceive(i: nat)
    | FinishReceive(i: nat, landed: bool)
    | Leave(i: nat)
    | Die(i: nat, childSurvives: bool)
    | ChildEnds(i: nat, landed: bool)

  const INITIAL := State([], map[], [])

  function Move(s: State, i: nat, phase: Phase): State
    requires i < |s.processes|
  {
    s.(processes := s.processes[i := s.processes[i].(phase := phase)])
  }

  /** Move to a phase that holds no lock. */
  function Drop(s: State, i: nat, phase: Phase): State
    requires i < |s.processes|
  {
    Move(s, i, phase).(locks := s.locks - {s.processes[i].dataset})
  }

  function Logged(s: State, i: nat, act: Act): State
    requires i < |s.processes|
  {
    s.(log := s.log + [Op(s.processes[i].dataset, i, act)])
  }

  /** The event's effect, or `None` where it cannot happen. */
  function Next(s: State, e: Event): Option<State> {
    if e.Arrive? then
      Some(s.(processes := s.processes + [Process(e.dataset, e.kind, Waiting)]))
    else if e.i >= |s.processes| then None
    else
      var p := s.processes[e.i];
      match e
      case Arrive(_, _) => None
      case Acquire(i) =>
        if !p.phase.Waiting? then None
        else if p.dataset in s.locks then Some(Move(s, i, Refused))
        else Some(Move(s, i, Admitted).(locks := s.locks[p.dataset := i]))
      case AbortPartial(i) =>
        if p.phase.Admitted? && p.kind != Channel(false) then Some(Move(Logged(s, i, Abort), i, Cleared)) else None
      case StartReceive(i) =>
        if (p.kind == Channel(true) && p.phase.Cleared?) || (p.kind == Channel(false) && p.phase.Admitted?) then
          Some(Move(Logged(s, i, Start(p.kind.discard)), i, Ingesting))
        else None
      case FinishReceive(i, landed) =>
        if p.phase.Ingesting? then Some(Drop(Logged(s, i, End(landed)), i, Gone)) else None
      case Leave(i) =>
        if p.phase.Admitted? || p.phase.Cleared? then Some(Drop(s, i, Gone)) else None
      case Die(i, childSurvives) =>
        if p.phase.Waiting? then Some(Move(s, i, Gone))
        else if p.phase.Admitted? || p.phase.Cleared? then Some(Drop(s, i, Gone))
        else if !p.phase.Ingesting? then None
        else if childSurvives then Some(Drop(s, i, Orphaned))
        else Some(Drop(Logged(s, i, End(false)), i, Gone))
      case ChildEnds(i, landed) =>
        if p.phase.Orphaned? then Some(Move(Logged(s, i, End(landed)), i, Gone)) else None
  }

  function Run(events: seq<Event>): Option<State>
    decreases |events|
  {
    if events == [] then Some(INITIAL)
    else
      match Run(events[..|events| - 1])
      case None => None
      case Some(s) => Next(s, events[|events| - 1])
  }

  // ---------------------------------------------------------- serial history

  /** Whose stream is being received into `d` after `log`. */
  function Ongoing(log: seq<Op>, d: string): Option<nat> {
    if log == [] then None
    else
      var op := log[|log| - 1];
      var before := Ongoing(log[..|log| - 1], d);
      if op.dataset != d || op.act.Abort? then before
      else if op.act.Start? then Some(op.process)
      else None
  }

  function LastOp(log: seq<Op>, d: string): Option<Op> {
    if log == [] then None
    else if log[|log| - 1].dataset == d then Some(log[|log| - 1])
    else LastOp(log[..|log| - 1], d)
  }

  /** May `op` follow `log`? Nothing starts or aborts during a receive, and only
      its own process ends one. */
  predicate Fits(log: seq<Op>, op: Op) {
    if op.act.End? then Ongoing(log, op.dataset) == Some(op.process) else Ongoing(log, op.dataset) == None
  }

  /** A serial history of (abort?, receive) episodes: a receive told to discard
      starts right after its own abort. */
  predicate Serial(log: seq<Op>) {
    log == []
    || (&& Serial(log[..|log| - 1])
        && var op := log[|log| - 1];
           && Fits(log[..|log| - 1], op)
           && (op.act == Start(true) ==> LastOp(log[..|log| - 1], op.dataset) == Some(Op(op.dataset, op.process, Abort))))
  }

  // ------------------------------------------------------------- invariant

  ghost predicate Exclusive(s: State) {
    && (forall d | d in s.locks ::
          s.locks[d] < |s.processes| && s.processes[s.locks[d]].dataset == d && s.processes[s.locks[d]].Holding())
    && forall i | 0 <= i < |s.processes| && s.processes[i].Holding() ::
         s.processes[i].dataset in s.locks && s.locks[s.processes[i].dataset] == i
  }

  ghost predicate LogMatches(s: State) {
    && (forall d :: Ongoing(s.log, d).Some? ==>
          var i := Ongoing(s.log, d).value;
          i < |s.processes| && s.processes[i].dataset == d && s.processes[i].phase.Ingesting?)
    && forall i | 0 <= i < |s.processes| ::
         var p := s.processes[i];
         && (p.phase.Ingesting? ==> Ongoing(s.log, p.dataset) == Some(i))
         && (p.phase.Cleared? ==> LastOp(s.log, p.dataset) == Some(Op(p.dataset, i, Abort)))
         && !p.phase.Orphaned?
  }

  ghost predicate Inv(s: State) {
    Exclusive(s) && LogMatches(s) && Serial(s.log)
  }

  // -------------------------------------------------------------- preservation

  lemma Appended(log: seq<Op>, op: Op)
    ensures Serial(log + [op]) <==>
              Serial(log) && Fits(log, op)
              && (op.act == Start(true) ==> LastOp(log, op.dataset) == Some(Op(op.dataset, op.process, Abort)))
    ensures forall d :: Ongoing(log + [op], d) ==
              if op.dataset != d || op.act.Abort? then Ongoing(log, d)
              else if op.act.Start? then Some(op.process) else None
    ensures forall d :: LastOp(log + [op], d) == if op.dataset == d then Some(op) else LastOp(log, d)
  {
    assert (log + [op])[..|log + [op]| - 1] == log;
  }

  lemma MoveKeepsExclusive(s: State, i: nat, phase: Phase)
    requires Exclusive(s) && i < |s.processes|
    requires s.processes[i].(phase := phase).Holding() == s.processes[i].Holding()
    ensures Exclusive(Move(s, i, phase))
  {
  }

  lemma DropKeepsExclusive(s: State, i: nat, phase: Phase)
    requires Exclusive(s) && i < |s.processes| && s.processes[i].Holding()
    requires !s.processes[i].(phase := phase).Holding()
    ensures Exclusive(Drop(s, i, phase))
  {
  }

  lemma NextKeepsExclusive(s: State, e: Event)
    requires Exclusive(s) && Next(s, e).Some?
    ensures Exclusive(Next(s, e).value)
  {
    if e.Arrive? {
    } else if e.Acquire? {
      if s.processes[e.i].dataset in s.locks {
        MoveKeepsExclusive(s, e.i, Refused);
      }
    } else if e.AbortPartial? {
      MoveKeepsExclusive(s, e.i, Cleared);
    } else if e.StartReceive? {
      MoveKeepsExclusive(s, e.i, Ingesting);
    } else if e.FinishReceive? || e.Leave? {
      DropKeepsExclusive(s, e.i, Gone);
    } else if e.Die? {
      if s.processes[e.i].phase.Waiting? {
        MoveKeepsExclusive(s, e.i, Gone);
      } else {
        DropKeepsExclusive(s, e.i, if s.processes[e.i].phase.Ingesting? && e.childSurvives then Orphaned else Gone);
      }
    } else {
      MoveKeepsExclusive(s, e.i, Gone);
    }
  }

  /** A process that neither was nor becomes a receiver moves on. */
  lemma QuietMove(s: State, i: nat, phase: Phase, s': State)
    requires LogMatches(s) && i < |s.processes| && s'.log == s.log && s'.processes == Move(s, i, phase).processes
    requires !s.processes[i].phase.Ingesting? && !phase.Ingesting? && !phase.Cleared? && !phase.Orphaned?
    ensures LogMatches(s')
  {
  }

  /** A lock holder logs an abort or a start on its dataset, where nothing is
      under way. */
  lemma BeginMove(s: State, i: nat, act: Act, phase: Phase, s': State)
    requires Exclusive(s) && LogMatches(s) && i < |s.processes|
    requires s.processes[i].phase.Admitted? || s.processes[i].phase.Cleared?
    requires (act.Abort? && phase.Cleared?) || (act.Start? && phase.Ingesting?)
    requires s' == Move(Logged(s, i, act), i, phase)
    ensures LogMatches(s') && Ongoing(s.log, s.processes[i].dataset) == None
  {
    var p := s.processes[i];
    Appended(s.log, Op(p.dataset, i, act));
    forall j | 0 <= j < |s.processes| && j != i && s.processes[j].Holding()
      ensures s.processes[j].dataset != p.dataset
    {
    }
  }

  /** A receiver logs the end of its receive. */
  lemma EndMove(s: State, i: nat, landed: bool, s': State)
    requires Exclusive(s) && LogMatches(s) && i < |s.processes| && s.processes[i].phase.Ingesting?
    requires s' == Drop(Logged(s, i, End(landed)), i, Gone)
    ensures LogMatches(s')
  {
    var p := s.processes[i];
    Appended(s.log, Op(p.dataset, i, End(landed)));
    forall j | 0 <= j < |s.processes| && j != i && s.processes[j].Holding()
      ensures s.processes[j].dataset != p.dataset
    {
    }
  }

  lemma NextKeepsInvariant(s: State, e: Event)
    requires Inv(s) && Next(s, e).Some? && !(e.Die? && e.childSurvives)
    ensures Inv(Next(s, e).value)
  {
    var s' := Next(s, e).value;
    NextKeepsExclusive(s, e);
    if e.Arrive? {
    } else if e.AbortPartial? {
      BeginMove(s, e.i, Abort, Cleared, s');
      Appended(s.log, Op(s.processes[e.i].dataset, e.i, Abort));
    } else if e.StartReceive? {
      var act := Start(s.processes[e.i].kind.discard);
      BeginMove(s, e.i, act, Ingesting, s');
      Appended(s.log, Op(s.processes[e.i].dataset, e.i, act));
    } else if s.processes[e.i].phase.Ingesting? {
      var landed := if e.Die? then false else e.landed;
      EndMove(s, e.i, landed, s');
      Appended(s.log, Op(s.processes[e.i].dataset, e.i, End(landed)));
    } else {
      QuietMove(s, e.i, s'.processes[e.i].phase, s');
    }
  }

  /** No event lets a child outlive its process. */
  predicate ChildrenDie(events: seq<Event>) {
    forall e | e in events :: !(e.Die? && e.childSurvives)
  }

  lemma {:induction false} RunKeepsInvariant(events: seq<Event>)
    requires Run(events).Some? && ChildrenDie(events)
    ensures Inv(Run(events).value)
    decreases |events|
  {
    if events != [] {
      var rest, e := events[..|events| - 1], events[|events| - 1];
      assert forall x | x in rest :: x in events;
      RunKeepsInvariant(rest);
      NextKeepsInvariant(Run(rest).value, e);
    }
  }

  /** Main result: over any interleaving of channels and discard requests, with
      deaths anywhere, each dataset has at most one holder and a serial
      history. */
  lemma ReceivesAreSerial(events: seq<Event>)
    requires Run(events).Some? && ChildrenDie(events)
    ensures var s := Run(events).value;
            && Serial(s.log)
            && forall i, j | 0 <= i < |s.processes| && 0 <= j < |s.processes|
                             && s.processes[i].dataset == s.processes[j].dataset
                             && s.processes[i].Holding() && s.processes[j].Holding() :: i == j
  {
    RunKeepsInvariant(events);
  }

  /** And nobody is turned away but by a live holder. */
  lemma RefusedOnlyByAHolder(events: seq<Event>, i: nat)
    requires Run(events).Some? && ChildrenDie(events)
    requires i < |Run(events).value.processes| && Run(events).value.processes[i].phase.Waiting?
    ensures var s := Run(events).value;
            Next(s, Acquire(i)) == Some(Move(s, i, Refused)) <==>
            exists j :: 0 <= j < |s.processes| && s.processes[j].dataset == s.processes[i].dataset && s.processes[j].Holding()
  {
    RunKeepsInvariant(events);
  }

  /** A channel died in mid-receive; its child did not. */
  function OrphanState(d: string): State {
    State([Process(d, Channel(false), Orphaned)], map[], [Op(d, 0, Start(false))])
  }

  /** One receive channel alone on its host. */
  function Alone(d: string, phase: Phase): State {
    State([Process(d, Channel(false), phase)], if phase.Waiting? then map[] else map[d := 0],
          if phase.Ingesting? then [Op(d, 0, Start(false))] else [])
  }

  lemma AloneMoves(d: string, phase: Phase, phase': Phase)
    ensures Move(Alone(d, phase), 0, phase').processes == [Process(d, Channel(false), phase')]
  {
  }

  lemma AloneIsAdmitted(d: string) returns (run: seq<Event>)
    ensures Run(run) == Some(Alone(d, Admitted))
  {
    assert INITIAL.processes + [Process(d, Channel(false), Waiting)] == Alone(d, Waiting).processes;
    run := Then([], INITIAL, Arrive(d, Channel(false)), Alone(d, Waiting));
    AloneMoves(d, Waiting, Admitted);
    run := Then(run, Alone(d, Waiting), Acquire(0), Alone(d, Admitted));
  }

  lemma AloneIngests(d: string) returns (run: seq<Event>)
    ensures Run(run) == Some(Alone(d, Ingesting))
  {
    run := AloneIsAdmitted(d);
    AloneMoves(d, Admitted, Ingesting);
    assert [] + Alone(d, Ingesting).log == Alone(d, Ingesting).log;
    run := Then(run, Alone(d, Admitted), StartReceive(0), Alone(d, Ingesting));
  }

  lemma OrphanIsReachable(d: string) returns (run: seq<Event>)
    ensures Run(run) == Some(OrphanState(d))
  {
    run := AloneIngests(d);
    AloneMoves(d, Ingesting, Orphaned);
    assert Alone(d, Ingesting).locks - {d} == map[];
    run := Then(run, Alone(d, Ingesting), Die(0, true), OrphanState(d));
  }

  /** The lock file is not inherited by `zfs recv`, so the hypothesis is needed:
      a child that outlives its process is still ingesting when the next channel
      aborts. */
  lemma SurvivingChildIsAborted(d: string)
    ensures exists events :: Run(events).Some? && !Serial(Run(events).value.log)
  {
    var s3 := OrphanState(d);
    var s4 := s3.(processes := s3.processes + [Process(d, Channel(true), Waiting)]);
    var s5 := State(s3.processes + [Process(d, Channel(true), Admitted)], map[d := 1], s3.log);
    var s6 := State(s3.processes + [Process(d, Channel(true), Cleared)], map[d := 1], s3.log + [Op(d, 1, Abort)]);
    var run := OrphanIsReachable(d);
    run := Then(run, s3, Arrive(d, Channel(true)), s4);
    assert s4.locks[d := 1] == s5.locks && Move(s4, 1, Admitted).processes == s5.processes;
    run := Then(run, s4, Acquire(1), s5);
    assert Move(s5, 1, Cleared).processes == s6.processes;
    run := Then(run, s5, AbortPartial(1), s6);
    StillOngoing(d);
    assert Run(run).Some?;
  }

  lemma StillOngoing(d: string)
    ensures !Serial(OrphanState(d).log + [Op(d, 1, Abort)])
  {
    Appended([], Op(d, 0, Start(false)));
    assert [] + [Op(d, 0, Start(false))] == OrphanState(d).log;
    Appended(OrphanState(d).log, Op(d, 1, Abort));
  }

  lemma Then(events: seq<Event>, s: State, e: Event, s': State) returns (longer: seq<Event>)
    requires Run(events) == Some(s) && Next(s, e) == Some(s')
    ensures Run(longer) == Some(s')
  {
    longer := events + [e];
    assert longer[..|longer| - 1] == events;
  }

  // ---------------------------------------------------------- one channel alone

  datatype RecvError = BadHeader | Forbidden | Busy | LockIo | AbortFailed | AncestorFailed | SpawnFailed | RecvFailed
    | StreamCopy

  /** What a channel may add to the history: at most one abort, then at most one
      receive, the receive only after the abort it was told to do. */
  predicate Episode(ops: seq<Op>, d: string, i: nat, discard: bool) {
    || ops == []
    || (discard && ops == [Op(d, i, Abort)])
    || exists landed :: ops == (if discard then [Op(d, i, Abort)] else []) + [Op(d, i, Start(discard)), Op(d, i, End(landed))]
  }

  lemma AddedSince(log: seq<Op>, first: seq<Op>, second: seq<Op>)
    ensures log <= log + first + second && (log + first + second)[|log|..] == first + second
  {
  }

  /** The receive side of one host: lock files, and what was done to datasets.
      `failures` counts the calls that have failed. */
  class Receiver {
    var locks: map<string, nat>
    var log: seq<Op>
    ghost var failures: nat

    constructor ()
      ensures Valid() && locks == map[] && log == [] && failures == 0
    {
      locks, log, failures := map[], [], 0;
    }

    ghost predicate Valid()
      reads this
    {
      Serial(log) && forall d | Ongoing(log, d).Some? :: d in locks
    }

    method Acquire(i: nat, d: string) returns (r: Result<(), RecvError>)
      modifies this`locks, this`failures
      ensures failures == old(failures) + if r == Err(LockIo) then 1 else 0
      ensures r.Ok? ==> d !in old(locks) && locks == old(locks)[d := i]
      ensures r.Err? ==> locks == old(locks)
      ensures r == Err(Busy) ==> d in old(locks)
      ensures r.Err? ==> r == Err(Busy) || r == Err(LockIo)
      ensures d in old(locks) ==> r.Err?
    {
      var available: bool := *;
      if !available {
        failures := failures + 1;
        return Err(LockIo);
      }
      if d in locks {
        return Err(Busy);
      }
      locks := locks[d := i];
      return Ok(());
    }

    method Record(i: nat, d: string, act: Act)
      requires Valid() && d in locks && Fits(log, Op(d, i, act))
      requires act == Start(true) ==> LastOp(log, d) == Some(Op(d, i, Abort))
      modifies this`log
      ensures Valid() && log == old(log) + [Op(d, i, act)] && LastOp(log, d) == Some(Op(d, i, act))
      ensures Ongoing(log, d) == if act.Abort? then old(Ongoing(log, d)) else if act.Start? then Some(i) else None
    {
      Appended(log, Op(d, i, act));
      log := log + [Op(d, i, act)];
    }

    /** `drive`: without a failure the stream is received unless the header, the
        lock or the grant forbids it. Whatever fails, the lock is dropped
        again and the history gains one whole episode or a part that leaves
        nothing under way. A copy that broke is an error even when the stream
        has landed. */
    method Drive(i: nat, d: string, headerOk: bool, discard: bool, mayDiscard: bool) returns (r: Result<(), RecvError>)
      requires Valid()
      modifies this
      ensures Valid() && locks == old(locks) && old(failures) <= failures
      ensures failures == old(failures) ==>
                r == (if !headerOk then Err(BadHeader)
                      else if d in old(locks) then Err(Busy)
                      else if discard && !mayDiscard then Err(Forbidden)
                      else Ok(()))
      ensures failures == old(failures) && r.Ok? ==>
                log == old(log) + (if discard then [Op(d, i, Abort)] else []) + [Op(d, i, Start(discard)), Op(d, i, End(true))]
      ensures old(log) <= log && Episode(log[|old(log)|..], d, i, discard)
      ensures r.Ok? || r == Err(StreamCopy) ==> headerOk && (discard ==> mayDiscard) && d !in old(locks)
      ensures r.Ok? || r == Err(StreamCopy) ==> LastOp(log, d) == Some(Op(d, i, End(true)))
      ensures r == Err(RecvFailed) ==> LastOp(log, d) == Some(Op(d, i, End(false)))
      ensures !headerOk || d in old(locks) || (discard && !mayDiscard) ==> log == old(log)
    {
      if !headerOk {
        return Err(BadHeader);
      }
      var lock := Acquire(i, d);
      if lock.Err? {
        return Err(lock.error);
      }
      r := Ingest(i, d, discard, mayDiscard);
      locks := locks - {d};
    }

    method Ingest(i: nat, d: string, discard: bool, mayDiscard: bool) returns (r: Result<(), RecvError>)
      requires Valid() && d in locks && Ongoing(log, d) == None
      modifies this`log, this`failures
      ensures Valid() && old(log) <= log && Ongoing(log, d) == None && old(failures) <= failures
      ensures failures == old(failures) ==> r == if discard && !mayDiscard then Err(Forbidden) else Ok(())
      ensures r.Ok? ==>
                log == old(log) + (if discard then [Op(d, i, Abort)] else []) + [Op(d, i, Start(discard)), Op(d, i, End(true))]
      ensures r.Err? ==> r.error.Forbidden? || failures > old(failures)
      ensures Episode(log[|old(log)|..], d, i, discard)
      ensures r.Ok? || r == Err(StreamCopy) ==>
                (discard ==> mayDiscard) && LastOp(log, d) == Some(Op(d, i, End(true)))
      ensures r == Err(RecvFailed) ==> LastOp(log, d) == Some(Op(d, i, End(false)))
      ensures discard && !mayDiscard ==> log == old(log)
    {
      ghost var ops := [];
      if discard {
        if !mayDiscard {
          return Err(Forbidden);
        }
        var effect: bool, reported: bool := *, *;
        if effect {
          Record(i, d, Abort);
          ops := [Op(d, i, Abort)];
        }
        if !effect || !reported {
          failures := failures + 1;
          AddedSince(old(log), ops, []);
          assert log == old(log) + ops + [];
          return Err(AbortFailed);
        }
      }
      assert log == old(log) + ops && ops == if discard then [Op(d, i, Abort)] else [];
      var ancestors: bool, spawned: bool := *, *;
      if !ancestors || !spawned {
        failures := failures + 1;
      }
      if !ancestors {
        return Err(AncestorFailed);
      }
      if !spawned {
        return Err(SpawnFailed);
      }
      var landed := Receive(i, d, discard);
      AddedSince(old(log), ops, [Op(d, i, Start(discard)), Op(d, i, End(landed))]);
      var copied: bool := *;
      failures := failures + if landed && copied then 0 else 1;
      r := if !landed then Err(RecvFailed) else if !copied then Err(StreamCopy) else Ok(());
    }

    method Receive(i: nat, d: string, discard: bool) returns (landed: bool)
      requires Valid() && d in locks && Ongoing(log, d) == None
      requires discard ==> LastOp(log, d) == Some(Op(d, i, Abort))
      modifies this`log
      ensures Valid() && Ongoing(log, d) == None && LastOp(log, d) == Some(Op(d, i, End(landed)))
      ensures log == old(log) + [Op(d, i, Start(discard)), Op(d, i, End(landed))]
    {
      landed := *;
      Record(i, d, Start(discard));
      Record(i, d, End(landed));
    }
  }
}
