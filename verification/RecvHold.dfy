/**
 The receiver's last-received hold (`advance_last_hold` in
 `daemon/src/stdinserver/recv.rs`) and the prune pass that races it
 (`prune_dataset` in `daemon/src/jobs/mod.rs`), on one target dataset.

 Before every ZFS call other processes may move the dataset to any state their
 part allows; `trace` records each state, so a claim over it covers a crash or a
 prune at that point.
 */
module RecvHold {
  import opened Wrappers
  import Prune
  import Retention
  import opened Names

  /** A row of `zfs list -t snapshot -o creation`; `None` when the creation
      property does not parse. */
  datatype Row = Row(name: string, creation: Option<int>)

  /** `busy`: snapshots a send in flight is using. */
  datatype Target = Target(rows: seq<Row>, holds: set<Hold>, busy: set<string>)

  function SnapshotNames(t: Target): set<string> {
    set row | row in t.rows :: row.name
  }

  /** ZFS: names are unique, and a hold needs its snapshot to exist. */
  predicate Sound(t: Target) {
    && (forall i, j | 0 <= i < j < |t.rows| :: t.rows[i].name != t.rows[j].name)
    && forall h | h in t.holds :: h.snapshot in SnapshotNames(t)
  }

  function Tagged(t: Target, tag: string): (r: set<string>)
    ensures forall x :: x in r <==> Hold(x, tag) in t.holds
  {
    set h | h in t.holds && h.tag == tag :: h.snapshot
  }

  predicate Held(t: Target, name: string) {
    exists h | h in t.holds :: h.snapshot == name
  }

  /** What a prune does: no hold changes, and only unheld snapshots go. */
  ghost predicate OnlyPrunes(a: Target, b: Target) {
    && b.holds == a.holds
    && SnapshotNames(b) <= SnapshotNames(a)
    && forall x | x in SnapshotNames(a) - SnapshotNames(b) :: !Held(a, x)
  }

  /** Any number of prune steps leave every tag where it is, on snapshots that
      are still there. */
  lemma {:induction false} PrunesKeepEveryTag(run: seq<Target>, tag: string)
    requires run != [] && forall k | 0 < k < |run| :: OnlyPrunes(run[k - 1], run[k])
    requires Sound(run[0])
    ensures Tagged(run[|run| - 1], tag) == Tagged(run[0], tag)
    ensures Tagged(run[0], tag) <= SnapshotNames(run[|run| - 1])
  {
    if |run| == 1 {
      assert forall x | x in Tagged(run[0], tag) :: Hold(x, tag) in run[0].holds;
    } else {
      var was, now := run[|run| - 2], run[|run| - 1];
      PrunesKeepEveryTag(run[..|run| - 1], tag);
      assert OnlyPrunes(was, now) && run[..|run| - 1][|run| - 2] == was;
      forall x | x in Tagged(run[0], tag)
        ensures x in SnapshotNames(now)
      {
        assert x in Tagged(was, tag) && x in SnapshotNames(was);
        assert Hold(x, tag) in was.holds && Held(was, x);
        assert x in SnapshotNames(was) - SnapshotNames(now) ==> !Held(was, x);
      }
    }
  }

  // ------------------------------------------------------------- prune input

  /** The part after the first `@`, or the whole name. */
  function BareTag(name: string): string {
    if name == [] then [] else if name[0] == '@' then name[1..] else if '@' !in name then name else BareTag(name[1..])
  }

  /** The rows whose creation parses, in order. */
  function Dated(rows: seq<Row>): (r: seq<Row>)
    ensures forall row :: row in r <==> row in rows && row.creation.Some?
  {
    if rows == [] then []
    else
      var last := rows[|rows| - 1];
      assert rows == rows[..|rows| - 1] + [last];
      Dated(rows[..|rows| - 1]) + if last.creation.Some? then [last] else []
  }

  /** What the rules are to judge: the tag behind a dataset's name. */
  lemma {:induction false} BareTagOfFullName(dataset: string, tag: string)
    requires '@' !in dataset
    ensures BareTag(dataset + "@" + tag) == tag
    ensures BareTag(dataset) == dataset
  {
    if dataset == [] {
      assert dataset + "@" + tag == "@" + tag;
    } else {
      var name := dataset + "@" + tag;
      assert name[1..] == dataset[1..] + "@" + tag;
      assert name[1..][|dataset| - 1] == '@';
      BareTagOfFullName(dataset[1..], tag);
    }
  }

  function Entries(rows: seq<Row>): seq<Retention.SnapshotEntry>
    requires forall row | row in rows :: row.creation.Some?
  {
    seq(|rows|, i requires 0 <= i < |rows| => Retention.SnapshotEntry(BareTag(rows[i].name), rows[i].creation.value))
  }

  function FullNames(rows: seq<Row>): seq<string> {
    seq(|rows|, i requires 0 <= i < |rows| => rows[i].name)
  }

  /** The rules, judging the datable rows, condemn the row called `name`. */
  ghost predicate Chosen(keep: seq<Prune.KeepRule>, rows: seq<Row>, name: string) {
    exists i: nat :: i < |Dated(rows)| && Dated(rows)[i].name == name && Prune.Condemned(keep, Entries(Dated(rows)), i)
  }

  /** Where the datable rows stand. */
  function DatedAt(rows: seq<Row>): (r: seq<nat>)
    ensures |r| == |Dated(rows)|
  {
    if rows == [] then []
    else DatedAt(rows[..|rows| - 1]) + if rows[|rows| - 1].creation.Some? then [|rows| - 1] else []
  }

  lemma {:induction false} DatedAtHolds(rows: seq<Row>, k: nat)
    ensures k in DatedAt(rows) <==> k < |rows| && rows[k].creation.Some?
  {
    if rows != [] {
      DatedAtHolds(rows[..|rows| - 1], k);
    }
  }

  lemma {:induction false} DatedAtAscends(rows: seq<Row>)
    ensures Retention.Ascending(DatedAt(rows)) && Retention.Below(DatedAt(rows), |rows|)
  {
    if rows != [] {
      DatedAtAscends(rows[..|rows| - 1]);
      Retention.Appended(DatedAt(rows[..|rows| - 1]), |rows| - 1);
    }
  }

  lemma {:induction false} DatedAtSelects(rows: seq<Row>, n: nat)
    requires n < |DatedAt(rows)|
    ensures DatedAt(rows)[n] < |rows| && Dated(rows)[n] == rows[DatedAt(rows)[n]]
  {
    var init := rows[..|rows| - 1];
    if n < |DatedAt(init)| {
      DatedAtSelects(init, n);
    }
  }

  lemma {:induction false} AscendingIsUnique(a: seq<nat>, b: seq<nat>)
    requires Retention.Ascending(a) && Retention.Ascending(b) && forall k: nat :: k in a <==> k in b
    ensures a == b
  {
    assert (a != [] ==> a[0] in b) && (b != [] ==> b[0] in a);
    if a != [] {
      var m, n := |a| - 1, |b| - 1;
      assert a[m] in b && b[n] in a;
      assert a[m] == b[n];
      forall k: nat
        ensures k in a[..m] <==> k in b[..n]
      {
        WithoutLast(a, k);
        WithoutLast(b, k);
      }
      AscendingIsUnique(a[..m], b[..n]);
    }
  }

  lemma WithoutLast(s: seq<nat>, k: nat)
    requires Retention.Ascending(s) && s != []
    ensures k in s[..|s| - 1] <==> k in s && k != s[|s| - 1]
  {
    assert s == s[..|s| - 1] + [s[|s| - 1]];
  }

  /** `listing` is what a reader of the rows of `dataset` would write down: the
      tag and creation of each datable row, in order; `pos` says of which. */
  ghost predicate Lists(dataset: string, rows: seq<Row>, pos: seq<nat>, listing: seq<Retention.SnapshotEntry>) {
    && |listing| == |pos| && Retention.Ascending(pos)
    && (forall k: nat :: k in pos <==> k < |rows| && rows[k].creation.Some?)
    && forall n | 0 <= n < |pos| ::
         && pos[n] < |rows|
         && rows[pos[n]] == Row(dataset + "@" + listing[n].name, Some(listing[n].creation))
  }

  /** Main result: the prune of a dataset chooses a snapshot exactly when the
      rules, judging the tags of its datable rows, condemn it. */
  lemma ChosenByTag(keep: seq<Prune.KeepRule>, dataset: string, rows: seq<Row>, pos: seq<nat>,
                    listing: seq<Retention.SnapshotEntry>, name: string)
    requires '@' !in dataset && Lists(dataset, rows, pos, listing)
    ensures Chosen(keep, rows, name) <==>
            exists n: nat :: n < |listing| && name == dataset + "@" + listing[n].name
                             && Prune.Condemned(keep, listing, n)
  {
    DatedAtAscends(rows);
    forall k: nat
      ensures k in DatedAt(rows) <==> k in pos
    {
      DatedAtHolds(rows, k);
    }
    AscendingIsUnique(pos, DatedAt(rows));
    forall n | 0 <= n < |listing|
      ensures Dated(rows)[n] == rows[pos[n]]
    {
      DatedAtSelects(rows, n);
    }
    forall n | 0 <= n < |listing|
      ensures Entries(Dated(rows))[n] == listing[n]
    {
      BareTagOfFullName(dataset, listing[n].name);
    }
    assert Entries(Dated(rows)) == listing;
    forall n: nat | n < |listing|
      ensures Dated(rows)[n].name == dataset + "@" + listing[n].name
    {
    }
  }

  datatype PruneFailure = ListFailed | BadRule(error: Prune.PruneError) | DestroyFailed(snapshot: string)

  datatype DestroyResult = Destroyed | SkippedHeld | SkippedBusy | Failed

  /** One `zfs destroy`: the state it met and the state it left. */
  datatype Attempt = Attempt(name: string, met: Target, left: Target, result: DestroyResult)

  /** A destroy takes away at most its own snapshot, and never one that is held
      or busy; a skip has the reason it names. */
  ghost predicate Lawful(a: Attempt) {
    && OnlyPrunes(a.met, a.left)
    && SnapshotNames(a.met) - SnapshotNames(a.left) <= {a.name}
    && (a.name in SnapshotNames(a.met) - SnapshotNames(a.left) ==> !Held(a.met, a.name) && a.name !in a.met.busy)
    && (a.result.Destroyed? ==> a.name in SnapshotNames(a.met) - SnapshotNames(a.left))
    && (a.result.SkippedHeld? ==> Held(a.met, a.name))
    && (a.result.SkippedBusy? ==> a.name in a.met.busy)
  }

  function Without(rows: seq<Row>, name: string): (r: seq<Row>)
    ensures forall row :: row in r <==> row in rows && row.name != name
    ensures (forall i, j | 0 <= i < j < |rows| :: rows[i].name != rows[j].name) ==>
              forall i, j | 0 <= i < j < |r| :: r[i].name != r[j].name
  {
    if rows == [] then []
    else
      var last := rows[|rows| - 1];
      assert rows == rows[..|rows| - 1] + [last];
      var rest := Without(rows[..|rows| - 1], name);
      assert forall i | 0 <= i < |rest| :: rest[i] in rest;
      rest + if last.name == name then [] else [last]
  }

  class Dataset {
    var zfs: Target
    ghost var trace: seq<Target>
    /** How many calls have failed. */
    ghost var failures: nat

    constructor (zfs: Target)
      requires Sound(zfs)
      ensures this.zfs == zfs && Valid() && failures == 0
    {
      this.zfs, trace, failures := zfs, [zfs], 0;
    }

    ghost predicate Valid()
      reads this
    {
      Sound(zfs) && trace != [] && trace[|trace| - 1] == zfs && forall k | 0 <= k < |trace| :: Sound(trace[k])
    }

    /** Others receive, prune, hold and release, but leave this job's tag alone. */
    method Others(tag: string)
      requires Valid()
      modifies this`zfs, this`trace
      ensures Valid() && trace == old(trace) + [zfs] && Tagged(zfs, tag) == old(Tagged(zfs, tag))
    {
      var next: Target := *;
      if Sound(next) && Tagged(next, tag) == Tagged(zfs, tag) {
        zfs := next;
      }
      trace := trace + [zfs];
    }

    // ----------------------------------------------------- last-received hold

    /** The snapshots carrying the job's last-received tag. */
    function Carriers(job: string): set<string>
      reads this
    {
      Tagged(zfs, LastHoldTag(job))
    }

    method HoldCall(snapshot: string, tag: string) returns (ok: bool)
      requires Valid()
      modifies this
      ensures Valid() && old(trace) <= trace && failures == old(failures) + if ok then 0 else 1
      ensures Tagged(zfs, tag) == old(Tagged(zfs, tag)) || Tagged(zfs, tag) == old(Tagged(zfs, tag)) + {snapshot}
      ensures ok ==> snapshot in Tagged(zfs, tag)
      ensures forall k | |old(trace)| <= k < |trace| :: old(Tagged(zfs, tag)) <= Tagged(trace[k], tag)
    {
      Others(tag);
      var effect: bool := *;
      ok := false;
      if effect && snapshot in SnapshotNames(zfs) {
        zfs := zfs.(holds := zfs.holds + {Hold(snapshot, tag)});
        ok := *;
      }
      trace, failures := trace + [zfs], failures + if ok then 0 else 1;
    }

    method ReleaseCall(snapshot: string, tag: string) returns (ok: bool)
      requires Valid()
      modifies this
      ensures Valid() && old(trace) <= trace && failures == old(failures) + if ok then 0 else 1
      ensures Tagged(zfs, tag) == old(Tagged(zfs, tag)) || Tagged(zfs, tag) == old(Tagged(zfs, tag)) - {snapshot}
      ensures ok ==> snapshot !in Tagged(zfs, tag)
      ensures forall k | |old(trace)| <= k < |trace| :: old(Tagged(zfs, tag)) - {snapshot} <= Tagged(trace[k], tag)
    {
      Others(tag);
      var effect: bool := *;
      ok := false;
      if effect {
        zfs := zfs.(holds := zfs.holds - {Hold(snapshot, tag)});
        ok := *;
      }
      trace, failures := trace + [zfs], failures + if ok then 0 else 1;
    }

    /** `zfs holds` on `names`; one that has vanished fails the whole call. */
    method ListHolds(names: seq<string>, tag: string) returns (r: Option<seq<Hold>>)
      requires Valid()
      modifies this
      ensures failures == old(failures) + if r.Some? then 0 else 1
      ensures Valid() && old(trace) <= trace && Tagged(zfs, tag) == old(Tagged(zfs, tag))
      ensures forall k | |old(trace)| <= k < |trace| :: Tagged(trace[k], tag) == old(Tagged(zfs, tag))
      ensures r.Some? ==> forall h :: h in r.value <==> h in zfs.holds && h.snapshot in names
    {
      Others(tag);
      var ok: bool := *;
      if !ok || exists n | n in names :: n !in SnapshotNames(zfs) {
        failures := failures + 1;
        return None;
      }
      var rest, listed := set h | h in zfs.holds && h.snapshot in names, [];
      while rest != {}
        invariant forall h :: h in zfs.holds && h.snapshot in names <==> h in rest || h in listed
      {
        var h :| h in rest;
        rest, listed := rest - {h}, listed + [h];
      }
      return Some(listed);
    }

    /** Every other snapshot of the dataset, as listed. */
    method OtherSnapshots(newSnap: string, tag: string) returns (r: Option<seq<string>>)
      requires Valid()
      modifies this
      ensures failures == old(failures) + if r.Some? then 0 else 1
      ensures Valid() && old(trace) <= trace && Tagged(zfs, tag) == old(Tagged(zfs, tag))
      ensures forall k | |old(trace)| <= k < |trace| :: Tagged(trace[k], tag) == old(Tagged(zfs, tag))
      ensures r.Some? ==> newSnap !in r.value && forall x | x in Tagged(zfs, tag) && x != newSnap :: x in r.value
    {
      Others(tag);
      var ok: bool := *;
      if !ok {
        failures := failures + 1;
        return None;
      }
      var others: seq<string> := [];
      var rows := zfs.rows;
      for n := 0 to |rows|
        invariant forall x :: x in others <==> x != newSnap && exists m :: 0 <= m < n && rows[m].name == x
      {
        if rows[n].name != newSnap {
          others := others + [rows[n].name];
        }
      }
      forall x | x in Tagged(zfs, tag) && x != newSnap
        ensures x in others
      {
        assert Hold(x, tag) in zfs.holds;
      }
      return Some(others);
    }

    /** Take the tag off every listed holder. */
    method ReleaseEach(holds: seq<Hold>, newSnap: string, tag: string)
      requires Valid() && newSnap in Tagged(zfs, tag) && Hold(newSnap, tag) !in holds
      modifies this
      ensures Valid() && old(trace) <= trace && old(failures) <= failures
      ensures newSnap in Tagged(zfs, tag) && Tagged(zfs, tag) <= old(Tagged(zfs, tag))
      ensures forall k | |old(trace)| <= k < |trace| :: newSnap in Tagged(trace[k], tag)
      ensures failures == old(failures) ==> forall h | h in holds && h.tag == tag :: h.snapshot !in Tagged(zfs, tag)
    {
      for n := 0 to |holds|
        invariant Valid() && old(trace) <= trace && old(failures) <= failures
        invariant newSnap in Tagged(zfs, tag) && Tagged(zfs, tag) <= old(Tagged(zfs, tag))
        invariant forall k | |old(trace)| <= k < |trace| :: newSnap in Tagged(trace[k], tag)
        invariant failures == old(failures) ==>
                    forall m | 0 <= m < n :: holds[m].tag == tag ==> holds[m].snapshot !in Tagged(zfs, tag)
      {
        if holds[n].tag == tag {
          assert holds[n] == Hold(holds[n].snapshot, tag) && holds[n] in holds;
          var ok := ReleaseCall(holds[n].snapshot, tag);
        }
      }
    }

    /** Hand the job's tag to `newSnap`. Some snapshot carries it throughout
        once one did; if no call fails, only the new one does at the end. */
    method AdvanceLastHold(job: string, newSnap: string)
      requires Valid()
      modifies this
      ensures Valid() && old(trace) <= trace && old(failures) <= failures
      ensures old(Carriers(job)) != {} ==>
                forall k | |old(trace)| <= k < |trace| :: Tagged(trace[k], LastHoldTag(job)) != {}
      ensures Carriers(job) <= old(Carriers(job)) + {newSnap}
      ensures newSnap in Carriers(job) || Carriers(job) == old(Carriers(job))
      ensures failures == old(failures) ==> Carriers(job) == {newSnap}
    {
      var tag := LastHoldTag(job);
      var placed := HoldCall(newSnap, tag);
      if !placed {
        return;
      }
      var others := OtherSnapshots(newSnap, tag);
      if others.None? {
        return;
      }
      var holds := ListHolds(others.value, tag);
      if holds.None? {
        return;
      }
      ghost var carriers := Tagged(zfs, tag);
      assert forall x | x in carriers && x != newSnap :: Hold(x, tag) in holds.value;
      ReleaseEach(holds.value, newSnap, tag);
      if failures == old(failures) {
        assert forall x | x in carriers && x != newSnap :: Hold(x, tag).snapshot !in Tagged(zfs, tag);
      }
    }

    // ------------------------------------------------------------------ prune

    /** Anything at all happens to the dataset. */
    method Interlude()
      requires Valid()
      modifies this`zfs, this`trace
      ensures Valid() && trace == old(trace) + [zfs]
    {
      var next: Target := *;
      if Sound(next) {
        zfs := next;
      }
      trace := trace + [zfs];
    }

    method DestroyCall(name: string) returns (result: DestroyResult, ghost met: Target)
      requires Valid()
      modifies this
      ensures Valid() && trace == old(trace) + [met, zfs] && Sound(met)
      ensures failures == old(failures) + if result.Failed? then 1 else 0
      ensures Lawful(Attempt(name, met, zfs, result))
    {
      Interlude();
      met := zfs;
      var effect: bool := *;
      result := Failed;
      if effect {
        if Held(zfs, name) {
          result := SkippedHeld;
        } else if name in zfs.busy {
          result := SkippedBusy;
        } else if name in SnapshotNames(zfs) {
          zfs := zfs.(rows := Without(zfs.rows, name));
          var reported: bool := *;
          result := if reported then Destroyed else Failed;
        }
      }
      trace, failures := trace + [zfs], failures + if result.Failed? then 1 else 0;
      assert SnapshotNames(met) - SnapshotNames(zfs) <= {name};
    }

    /** Destroy the named snapshots in turn, stopping at the first failure. */
    method DestroyEach(targets: seq<string>) returns (r: Result<(), PruneFailure>, ghost log: seq<Attempt>)
      requires Valid()
      modifies this
      ensures Valid() && old(trace) <= trace && failures == old(failures) + if r.Ok? then 0 else 1
      ensures |log| <= |targets| && forall i | 0 <= i < |log| :: Lawful(log[i]) && log[i].name == targets[i]
      ensures forall i | 0 <= i < |log| - 1 :: !log[i].result.Failed?
      ensures r.Ok? ==> |log| == |targets| && forall a | a in log :: !a.result.Failed?
      ensures r.Err? ==> log != [] && log[|log| - 1].result.Failed? && r.error == DestroyFailed(log[|log| - 1].name)
    {
      log := [];
      for n := 0 to |targets|
        invariant Valid() && old(trace) <= trace && |log| == n && failures == old(failures)
        invariant forall i | 0 <= i < n :: Lawful(log[i]) && log[i].name == targets[i] && !log[i].result.Failed?
      {
        var result, met := DestroyCall(targets[n]);
        log := log + [Attempt(targets[n], met, zfs, result)];
        if result.Failed? {
          return Err(DestroyFailed(targets[n])), log;
        }
      }
      return Ok(()), log;
    }

    /** `listed` is what the listing showed, `log` every destroy in order. */
    method PruneDataset(keep: seq<Prune.KeepRule>)
      returns (r: Result<(), PruneFailure>, ghost listed: seq<Row>, ghost log: seq<Attempt>)
      requires Valid()
      modifies this
      ensures Valid() && old(trace) <= trace
      ensures failures == old(failures) ==> (r.Ok? <==> forall rule | rule in keep :: rule.pattern.valid)
      ensures r.Err? && !r.error.BadRule? ==> failures > old(failures)
      ensures |old(trace)| < |trace| && (failures == old(failures) ==> listed == trace[|old(trace)|].rows)
      ensures forall i | 0 <= i < |log| :: Lawful(log[i]) && Chosen(keep, listed, log[i].name)
      ensures forall i | 0 <= i < |log| - 1 :: !log[i].result.Failed?
      ensures r.Ok? ==> (forall name :: Chosen(keep, listed, name) ==> exists i :: 0 <= i < |log| && log[i].name == name)
                        && forall a | a in log :: !a.result.Failed?
      ensures r.Err? && r.error.DestroyFailed? ==>
                log != [] && log[|log| - 1].result.Failed? && log[|log| - 1].name == r.error.snapshot
      ensures r.Err? && !r.error.DestroyFailed? ==> log == []
    {
      log, listed := [], [];
      Interlude();
      var ok: bool := *;
      if !ok {
        failures := failures + 1;
        r := Err(ListFailed);
        return;
      }
      var rows := zfs.rows;
      listed := rows;
      var targets := ChooseTargets(keep, rows);
      if targets.Err? {
        r := Err(BadRule(targets.error));
        return;
      }
      r, log := DestroyEach(targets.value);
    }
  }

  /** The full names the rules condemn. */
  method ChooseTargets(keep: seq<Prune.KeepRule>, rows: seq<Row>) returns (r: Result<seq<string>, Prune.PruneError>)
    ensures r.Ok? ==> forall n | 0 <= n < |r.value| :: Chosen(keep, rows, r.value[n])
    ensures r.Ok? ==> forall name | Chosen(keep, rows, name) :: exists n :: 0 <= n < |r.value| && r.value[n] == name
    ensures r.Ok? <==> forall rule | rule in keep :: rule.pattern.valid
  {
    var entries, fullNames := CollectEntries(rows);
    var victims := Prune.Evaluate(keep, entries);
    if victims.Err? {
      return Err(victims.error);
    }
    var indices := victims.value;
    assert forall n | 0 <= n < |indices| :: indices[n] in indices;
    var targets := seq(|indices|, n requires 0 <= n < |indices| => fullNames[indices[n]]);
    ChosenTargets(keep, rows, indices, targets);
    return Ok(targets);
  }

  method CollectEntries(rows: seq<Row>) returns (entries: seq<Retention.SnapshotEntry>, fullNames: seq<string>)
    ensures entries == Entries(Dated(rows)) && fullNames == FullNames(Dated(rows))
  {
    entries, fullNames := [], [];
    for n := 0 to |rows|
      invariant entries == Entries(Dated(rows[..n])) && fullNames == FullNames(Dated(rows[..n]))
    {
      assert rows[..n + 1][..n] == rows[..n];
      if rows[n].creation.Some? {
        entries := entries + [Retention.SnapshotEntry(BareTag(rows[n].name), rows[n].creation.value)];
        fullNames := fullNames + [rows[n].name];
      }
    }
    assert rows[..|rows|] == rows;
  }

  /** Looking condemned indices up among the full names names the chosen rows,
      undatable rows in between notwithstanding. */
  lemma ChosenTargets(keep: seq<Prune.KeepRule>, rows: seq<Row>, indices: seq<nat>, targets: seq<string>)
    requires forall i: nat :: i in indices <==> Prune.Condemned(keep, Entries(Dated(rows)), i)
    requires |targets| == |indices|
    requires forall n | 0 <= n < |indices| ::
               indices[n] < |Dated(rows)| && targets[n] == FullNames(Dated(rows))[indices[n]]
    ensures forall n | 0 <= n < |targets| :: Chosen(keep, rows, targets[n])
    ensures forall name | Chosen(keep, rows, name) :: exists n :: 0 <= n < |targets| && targets[n] == name
  {
    forall n | 0 <= n < |targets|
      ensures Chosen(keep, rows, targets[n])
    {
      assert indices[n] in indices && Dated(rows)[indices[n]].name == targets[n];
    }
    forall name | Chosen(keep, rows, name)
      ensures exists n :: 0 <= n < |targets| && targets[n] == name
    {
      var i: nat :| i < |Dated(rows)| && Dated(rows)[i].name == name && Prune.Condemned(keep, Entries(Dated(rows)), i);
      assert i in indices;
      var n :| 0 <= n < |indices| && indices[n] == i;
      assert targets[n] == name;
    }
  }

  // ------------------------------------------------- two hand-overs at a time

  /** One hand-over between its calls. The receive lock is already dropped when
      it starts, so two may be under way for one dataset. */
  datatype HandOver =
    | Starting(to: string)
    | Placed(to: string)
    | Releasing(to: string, others: set<string>)
    | Finished(to: string, others: set<string>)

  /** The next call of a hand-over, all calls succeeding. */
  function Turn(tagged: set<string>, h: HandOver): (set<string>, HandOver) {
    match h
    case Starting(to) => (tagged + {to}, Placed(to))
    case Placed(to) => (tagged, Releasing(to, tagged - {to}))
    case Releasing(to, others) => (tagged - others, Finished(to, others))
    case Finished(_, _) => (tagged, h)
  }

  datatype Pair = Pair(tagged: set<string>, a: HandOver, b: HandOver)

  /** `true` gives the turn to `a`. */
  function Interleave(p: Pair, schedule: seq<bool>): Pair {
    if schedule == [] then p
    else
      var before := Interleave(p, schedule[..|schedule| - 1]);
      if schedule[|schedule| - 1] then
        var (tagged, a) := Turn(before.tagged, before.a);
        Pair(tagged, a, before.b)
      else
        var (tagged, b) := Turn(before.tagged, before.b);
        Pair(tagged, before.a, b)
  }

  /** What `h` has found to release, once it has looked. */
  predicate Saw(h: HandOver, other: string) {
    (h.Releasing? || h.Finished?) && other in h.others
  }

  /** The tag on `own.to`, while `other` hands over too. */
  ghost predicate Tracked(tagged: set<string>, own: HandOver, other: HandOver) {
    && (own.to in tagged <==> !own.Starting? && !(other.Finished? && Saw(other, own.to)))
    && (Saw(other, own.to) ==> !own.Starting?)
    && !Saw(own, own.to)
  }

  /** A tag on an older snapshot `x`. */
  ghost predicate TrackedOld(tagged: set<string>, a: HandOver, b: HandOver, x: string, before: set<string>) {
    && x != a.to && x != b.to
    && (x in tagged ==> x in before && !(a.Finished? && Saw(a, x)) && !(b.Finished? && Saw(b, x)))
    && (x in before && x !in tagged ==> (a.Finished? && Saw(a, x)) || (b.Finished? && Saw(b, x)))
    && (x in before && (a.Releasing? || a.Finished?) ==> Saw(a, x) || (b.Finished? && Saw(b, x)))
    && (x in before && (b.Releasing? || b.Finished?) ==> Saw(b, x) || (a.Finished? && Saw(a, x)))
  }

  lemma {:induction false} TrackOwn(before: set<string>, x: string, y: string, schedule: seq<bool>)
    requires x != y && x !in before && y !in before
    ensures var p := Interleave(Pair(before, Starting(x), Starting(y)), schedule);
            p.a.to == x && p.b.to == y && Tracked(p.tagged, p.a, p.b) && Tracked(p.tagged, p.b, p.a)
  {
    if schedule != [] {
      TrackOwn(before, x, y, schedule[..|schedule| - 1]);
    }
  }

  lemma {:induction false} TrackOld(before: set<string>, x: string, y: string, schedule: seq<bool>, z: string)
    requires x != y && z != x && z != y
    ensures var p := Interleave(Pair(before, Starting(x), Starting(y)), schedule);
            p.a.to == x && p.b.to == y && TrackedOld(p.tagged, p.a, p.b, z, before)
  {
    if schedule != [] {
      TrackOld(before, x, y, schedule[..|schedule| - 1], z);
    }
  }

  /** How often `who` has had a turn. */
  function Turns(schedule: seq<bool>, who: bool): nat {
    if schedule == [] then 0
    else Turns(schedule[..|schedule| - 1], who) + if schedule[|schedule| - 1] == who then 1 else 0
  }

  /** Turn `n` is the second of `who`, the one that lists the holders, and the
      other has placed its tag before it. */
  predicate LooksAt(schedule: seq<bool>, who: bool, n: nat) {
    && n < |schedule| && schedule[n] == who
    && Turns(schedule[..n], who) == 1 && Turns(schedule[..n], !who) >= 1
  }

  predicate LooksAfterTheOther(schedule: seq<bool>, who: bool) {
    exists n: nat :: n < |schedule| && LooksAt(schedule, who, n)
  }

  predicate InPhase(h: HandOver, turns: nat) {
    && (h.Starting? <==> turns == 0) && (h.Placed? <==> turns == 1)
    && (h.Releasing? <==> turns == 2) && (h.Finished? <==> turns >= 3)
  }

  lemma {:induction false} PhasesFollowTurns(before: set<string>, x: string, y: string, schedule: seq<bool>)
    ensures var p := Interleave(Pair(before, Starting(x), Starting(y)), schedule);
            InPhase(p.a, Turns(schedule, true)) && InPhase(p.b, Turns(schedule, false))
  {
    if schedule != [] {
      PhasesFollowTurns(before, x, y, schedule[..|schedule| - 1]);
    }
  }

  lemma LooksGrows(schedule: seq<bool>, who: bool)
    requires schedule != []
    ensures LooksAfterTheOther(schedule, who) <==>
            LooksAfterTheOther(schedule[..|schedule| - 1], who) || LooksAt(schedule, who, |schedule| - 1)
  {
    var rest := schedule[..|schedule| - 1];
    forall n: nat | n < |rest|
      ensures LooksAt(rest, who, n) <==> LooksAt(schedule, who, n)
    {
      assert rest[..n] == schedule[..n];
    }
  }

  /** What a hand-over found to release is decided by the order of turns. */
  lemma {:induction false} SawIffLooked(before: set<string>, x: string, y: string, schedule: seq<bool>)
    requires x != y && x !in before && y !in before
    ensures var p := Interleave(Pair(before, Starting(x), Starting(y)), schedule);
            && (Saw(p.a, y) <==> LooksAfterTheOther(schedule, true))
            && (Saw(p.b, x) <==> LooksAfterTheOther(schedule, false))
  {
    if schedule != [] {
      var rest := schedule[..|schedule| - 1];
      SawIffLooked(before, x, y, rest);
      TrackOwn(before, x, y, rest);
      PhasesFollowTurns(before, x, y, rest);
      LooksGrows(schedule, true);
      LooksGrows(schedule, false);
    }
  }

  /** Main result: over every schedule in which both finish, two hand-overs for
      different snapshots lose every tag exactly when each lists the holders
      after the other has placed its tag. */
  lemma TwoHandOversLoseEveryTagIff(before: set<string>, x: string, y: string, schedule: seq<bool>)
    requires x != y && x !in before && y !in before
    requires Turns(schedule, true) >= 3 && Turns(schedule, false) >= 3
    ensures Interleave(Pair(before, Starting(x), Starting(y)), schedule).tagged == {}
            <==> LooksAfterTheOther(schedule, true) && LooksAfterTheOther(schedule, false)
  {
    var p := Interleave(Pair(before, Starting(x), Starting(y)), schedule);
    PhasesFollowTurns(before, x, y, schedule);
    SawIffLooked(before, x, y, schedule);
    TrackOwn(before, x, y, schedule);
    forall z | z != x && z != y
      ensures z !in p.tagged
    {
      TrackOld(before, x, y, schedule, z);
    }
    if Saw(p.a, y) && Saw(p.b, x) {
      assert p.tagged == {};
    }
  }

  const IN_STEP := [true, false, true, false, true, false]

  /** Call by call in step, that happens. */
  lemma HandOversInStepLoseEveryTag(before: set<string>, x: string, y: string)
    requires x != y && x !in before && y !in before
    ensures Interleave(Pair(before, Starting(x), Starting(y)), IN_STEP).tagged == {}
  {
    var start := Pair(before, Starting(x), Starting(y));
    var held := before + {x, y};
    assert IN_STEP[..5][..4] == IN_STEP[..4] && IN_STEP[..4][..3] == IN_STEP[..3];
    assert IN_STEP[..3][..2] == IN_STEP[..2] && IN_STEP[..2][..1] == IN_STEP[..1] && IN_STEP[..1][..0] == [];
    assert Interleave(start, IN_STEP[..1]) == Pair(before + {x}, Placed(x), Starting(y));
    assert Interleave(start, IN_STEP[..2]) == Pair(held, Placed(x), Placed(y)) by {
      assert before + {x} + {y} == held;
    }
    assert Interleave(start, IN_STEP[..4]) == Pair(held, Releasing(x, held - {x}), Releasing(y, held - {y}));
    assert Interleave(start, IN_STEP) == Pair({}, Finished(x, held - {x}), Finished(y, held - {y})) by {
      assert held - (held - {x}) - (held - {y}) == {};
    }
  }
}
