/**
 Step holds and the cursor bookmark of one (dataset, job, peer)
 (`daemon/src/jobs/push/holds.rs`), and the order in which a step uses them
 (`run_one_filesystem` in `daemon/src/jobs/push/step.rs`).

 Any ZFS call may fail, with or without having taken effect, and before each
 one other processes may change every hold and bookmark that does not belong to
 this pair. `trace` records every state in between, so a claim over the trace is
 a claim about a crash at that point; `failures` counts the calls that reported
 an error.
 */
module Holds {
  import opened Wrappers
  import opened Names

  /** The holds and bookmarks (leaf to GUID) of one dataset. */
  datatype Zfs = Zfs(holds: set<Hold>, bookmarks: map<string, nat>)

  datatype Moment = Moment(zfs: Zfs, ours: bool)

  /** What belongs to the pair: the snapshots carrying its tag, and its cursors. */
  datatype View = View(tagged: set<string>, cursors: map<string, nat>)

  ghost function Own(z: Zfs, job: string, peer: string): View {
    View(
      set h | h in z.holds && h.tag == StepHoldTag(job, peer) :: h.snapshot,
      map leaf | leaf in z.bookmarks && IsCursorLeaf(leaf, job, peer) :: z.bookmarks[leaf])
  }

  ghost function Foreign(z: Zfs, job: string, peer: string): Zfs {
    Zfs(
      set h | h in z.holds && h.tag != StepHoldTag(job, peer),
      map leaf | leaf in z.bookmarks && !IsCursorLeaf(leaf, job, peer) :: z.bookmarks[leaf])
  }

  /** Our calls touch nothing of others; others touch nothing of ours. */
  ghost predicate Separate(trace: seq<Moment>, job: string, peer: string) {
    forall k | 0 < k < |trace| ::
      if trace[k].ours
      then Foreign(trace[k].zfs, job, peer) == Foreign(trace[k - 1].zfs, job, peer)
      else Own(trace[k].zfs, job, peer) == Own(trace[k - 1].zfs, job, peer)
  }

  // ----------------------------------------------------- what a state promises

  /** Something on the sender still records `to`: the hold or the cursor. */
  ghost predicate Recorded(v: View, to: string, leaf: string, guid: nat) {
    to in v.tagged || (leaf in v.cursors && v.cursors[leaf] == guid)
  }

  /** `v` is reached from `was` by releasing only tags of `candidates` outside
      `keep`. */
  ghost predicate Released(was: View, v: View, candidates: set<string>, keep: set<string>) {
    && v.cursors == was.cursors
    && v.tagged <= was.tagged
    && was.tagged - (candidates - keep) <= v.tagged
  }

  /** `v` is reached from `was` by creating the cursor and, once it exists,
      destroying others. */
  ghost predicate Advanced(was: View, v: View, leaf: string, guid: nat) {
    && v.tagged == was.tagged
    && (v.cursors == was.cursors
        || (leaf in v.cursors && v.cursors[leaf] == guid
            && forall l | l in v.cursors && l != leaf :: l in was.cursors && was.cursors[l] == v.cursors[l]))
  }

  /** In such a run no call of ours removes a cursor or a hold that another pair
      placed, unless the names let us claim it. */
  lemma AnotherPairIsUntouched(trace: seq<Moment>, k: nat, job: string, peer: string,
                               job': string, peer': string, guid: nat, snapshot: string)
    requires Separate(trace, job, peer) && 0 < k < |trace| && trace[k].ours
    requires ValidIdentifier(job) && ValidIdentifier(peer) && ValidIdentifier(job') && ValidIdentifier(peer')
    requires !Claimed(job', peer', job, peer)
    ensures var leaf := CursorLeaf(guid, job', peer');
            var was, now := trace[k - 1].zfs.bookmarks, trace[k].zfs.bookmarks;
            (leaf in was <==> leaf in now) && (leaf in was ==> now[leaf] == was[leaf])
    ensures var hold := Hold(snapshot, StepHoldTag(job', peer'));
            hold in trace[k - 1].zfs.holds <==> hold in trace[k].zfs.holds
  {
    var was, now := trace[k - 1].zfs, trace[k].zfs;
    CursorClaimedIff(guid, job', peer', job, peer);
    StepTagsAreEqualIff(job', peer', job, peer);
    var leaf, hold := CursorLeaf(guid, job', peer'), Hold(snapshot, StepHoldTag(job', peer'));
    assert leaf in Foreign(was, job, peer).bookmarks <==> leaf in was.bookmarks;
    assert leaf in Foreign(now, job, peer).bookmarks <==> leaf in now.bookmarks;
    assert leaf in was.bookmarks ==> Foreign(was, job, peer).bookmarks[leaf] == was.bookmarks[leaf];
    assert hold in Foreign(was, job, peer).holds <==> hold in was.holds;
    assert hold in Foreign(now, job, peer).holds <==> hold in now.holds;
  }

  datatype StepResult = HoldFailed | SendFailed | Sent

  function Ends(from: Option<string>, to: string): seq<string> {
    (if from.Some? then [from.value] else []) + [to]
  }

  /** One planned step: the filtered snapshots, the base when it is a snapshot,
      what is sent, and whether the send works. */
  datatype Step = Step(snapshots: seq<string>, from: Option<string>, to: string, guid: nat, sendWorks: bool)

  lemma AtMostTwo(s: set<string>, from: Option<string>, to: string)
    requires s <= Elements(Ends(from, to))
    ensures |s| <= 2
  {
    var ends := if from.Some? then {from.value} + {to} else {to};
    assert Elements(Ends(from, to)) == ends;
    SubsetSize(s, ends);
  }

  // ------------------------------------------------- effects of single calls

  lemma AfterHold(z: Zfs, job: string, peer: string, snapshot: string)
    ensures var after := z.(holds := z.holds + {Hold(snapshot, StepHoldTag(job, peer))});
            && Foreign(after, job, peer) == Foreign(z, job, peer)
            && Own(after, job, peer) == Own(z, job, peer).(tagged := Own(z, job, peer).tagged + {snapshot})
  {
    var after := z.(holds := z.holds + {Hold(snapshot, StepHoldTag(job, peer))});
    assert Hold(snapshot, StepHoldTag(job, peer)) in after.holds;
    assert Own(after, job, peer).tagged == Own(z, job, peer).tagged + {snapshot};
  }

  lemma AfterRelease(z: Zfs, job: string, peer: string, snapshot: string)
    ensures var after := z.(holds := z.holds - {Hold(snapshot, StepHoldTag(job, peer))});
            && Foreign(after, job, peer) == Foreign(z, job, peer)
            && Own(after, job, peer) == Own(z, job, peer).(tagged := Own(z, job, peer).tagged - {snapshot})
  {
    var after := z.(holds := z.holds - {Hold(snapshot, StepHoldTag(job, peer))});
    forall x
      ensures x in Own(after, job, peer).tagged <==> x in Own(z, job, peer).tagged && x != snapshot
    {
      TaggedMeansHeld(z, job, peer, x);
      TaggedMeansHeld(after, job, peer, x);
    }
    assert Own(after, job, peer).tagged == Own(z, job, peer).tagged - {snapshot};
  }

  lemma TaggedMeansHeld(z: Zfs, job: string, peer: string, snapshot: string)
    ensures snapshot in Own(z, job, peer).tagged <==> Hold(snapshot, StepHoldTag(job, peer)) in z.holds
  {
  }

  lemma AfterCreate(z: Zfs, job: string, peer: string, leaf: string, guid: nat)
    requires IsCursorLeaf(leaf, job, peer)
    ensures var after := z.(bookmarks := z.bookmarks[leaf := guid]);
            && Foreign(after, job, peer) == Foreign(z, job, peer)
            && Own(after, job, peer) == Own(z, job, peer).(cursors := Own(z, job, peer).cursors[leaf := guid])
  {
  }

  lemma AfterDestroy(z: Zfs, job: string, peer: string, leaf: string)
    requires IsCursorLeaf(leaf, job, peer)
    ensures var after := z.(bookmarks := z.bookmarks - {leaf});
            && Foreign(after, job, peer) == Foreign(z, job, peer)
            && Own(after, job, peer) == Own(z, job, peer).(cursors := Own(z, job, peer).cursors - {leaf})
  {
  }

  class HoldScope {
    const dataset: string
    const job: string
    const peer: string
    var zfs: Zfs
    ghost var trace: seq<Moment>
    ghost var failures: nat

    constructor (dataset: string, job: string, peer: string, zfs: Zfs)
      ensures this.dataset == dataset && this.job == job && this.peer == peer && this.zfs == zfs
      ensures Valid() && failures == 0
    {
      this.dataset, this.job, this.peer, this.zfs := dataset, job, peer, zfs;
      trace, failures := [Moment(zfs, true)], 0;
    }

    ghost predicate Valid()
      reads this
    {
      trace != [] && trace[|trace| - 1].zfs == zfs && Separate(trace, job, peer)
    }

    ghost function Mine(): View
      reads this
    {
      Own(zfs, job, peer)
    }

    // ------------------------------------------------------------ ZFS calls

    method Others()
      requires Valid()
      modifies this`zfs, this`trace
      ensures Valid() && |trace| == |old(trace)| + 1 && old(trace) <= trace && Mine() == old(Mine())
    {
      var holds: set<Hold>, bookmarks: map<string, nat> := *, *;
      var tag := StepHoldTag(job, peer);
      zfs := Zfs(
        (set h | h in zfs.holds && h.tag == tag) + (set h | h in holds && h.tag != tag),
        (map l | l in bookmarks && !IsCursorLeaf(l, job, peer) :: bookmarks[l])
        + (map l | l in zfs.bookmarks && IsCursorLeaf(l, job, peer) :: zfs.bookmarks[l]));
      trace := trace + [Moment(zfs, false)];
      assert Mine() == old(Mine());
    }

    /** `zfs hold`; a tag already there is a no-op. */
    method HoldCall(snapshot: string) returns (ok: bool)
      requires Valid()
      modifies this`zfs, this`trace, this`failures
      ensures Valid() && old(trace) <= trace
      ensures failures == old(failures) + if ok then 0 else 1
      ensures Mine() == old(Mine()) || Mine() == old(Mine()).(tagged := old(Mine()).tagged + {snapshot})
      ensures ok ==> snapshot in Mine().tagged
      ensures forall k | |old(trace)| <= k < |trace| ::
                Own(trace[k].zfs, job, peer) == old(Mine()) || Own(trace[k].zfs, job, peer) == Mine()
    {
      Others();
      AfterHold(zfs, job, peer, snapshot);
      var effect: bool;
      ok, effect := *, *;
      if ok || effect {
        zfs := zfs.(holds := zfs.holds + {Hold(snapshot, StepHoldTag(job, peer))});
      }
      trace, failures := trace + [Moment(zfs, true)], failures + if ok then 0 else 1;
    }

    /** `zfs release`. */
    method ReleaseCall(snapshot: string) returns (ok: bool)
      requires Valid()
      modifies this`zfs, this`trace, this`failures
      ensures Valid() && old(trace) <= trace
      ensures failures == old(failures) + if ok then 0 else 1
      ensures Mine() == old(Mine()) || Mine() == old(Mine()).(tagged := old(Mine()).tagged - {snapshot})
      ensures ok ==> snapshot !in Mine().tagged
      ensures forall k | |old(trace)| <= k < |trace| ::
                Own(trace[k].zfs, job, peer) == old(Mine()) || Own(trace[k].zfs, job, peer) == Mine()
    {
      Others();
      AfterRelease(zfs, job, peer, snapshot);
      var effect: bool;
      ok, effect := *, *;
      if ok || effect {
        zfs := zfs.(holds := zfs.holds - {Hold(snapshot, StepHoldTag(job, peer))});
      }
      trace, failures := trace + [Moment(zfs, true)], failures + if ok then 0 else 1;
    }

    /** `zfs bookmark` of a snapshot with `guid`, under a cursor leaf. */
    method CreateCall(leaf: string, guid: nat) returns (ok: bool)
      requires Valid() && IsCursorLeaf(leaf, job, peer)
      modifies this`zfs, this`trace, this`failures
      ensures Valid() && old(trace) <= trace
      ensures failures == old(failures) + if ok then 0 else 1
      ensures Mine() == old(Mine()) || Mine() == old(Mine()).(cursors := old(Mine()).cursors[leaf := guid])
      ensures ok ==> leaf in Mine().cursors && Mine().cursors[leaf] == guid
      ensures forall k | |old(trace)| <= k < |trace| ::
                Own(trace[k].zfs, job, peer) == old(Mine()) || Own(trace[k].zfs, job, peer) == Mine()
    {
      Others();
      AfterCreate(zfs, job, peer, leaf, guid);
      var effect: bool;
      ok, effect := *, *;
      if ok || effect {
        zfs := zfs.(bookmarks := zfs.bookmarks[leaf := guid]);
      }
      trace, failures := trace + [Moment(zfs, true)], failures + if ok then 0 else 1;
    }

    /** `zfs destroy` of a cursor bookmark. */
    method DestroyCall(leaf: string) returns (ok: bool)
      requires Valid() && IsCursorLeaf(leaf, job, peer)
      modifies this`zfs, this`trace, this`failures
      ensures Valid() && old(trace) <= trace
      ensures failures == old(failures) + if ok then 0 else 1
      ensures Mine() == old(Mine()) || Mine() == old(Mine()).(cursors := old(Mine()).cursors - {leaf})
      ensures ok ==> leaf !in Mine().cursors
      ensures forall k | |old(trace)| <= k < |trace| ::
                Own(trace[k].zfs, job, peer) == old(Mine()) || Own(trace[k].zfs, job, peer) == Mine()
    {
      Others();
      AfterDestroy(zfs, job, peer, leaf);
      var effect: bool;
      ok, effect := *, *;
      if ok || effect {
        zfs := zfs.(bookmarks := zfs.bookmarks - {leaf});
      }
      trace, failures := trace + [Moment(zfs, true)], failures + if ok then 0 else 1;
    }

    /** `zfs holds` on the candidates. */
    method ListHolds(candidates: seq<string>) returns (r: Option<seq<Hold>>)
      requires Valid()
      modifies this`zfs, this`trace, this`failures
      ensures Valid() && old(trace) <= trace && Mine() == old(Mine())
      ensures failures == old(failures) + if r.Some? then 0 else 1
      ensures r.Some? ==> forall x :: Hold(x, StepHoldTag(job, peer)) in r.value <==> x in candidates && x in Mine().tagged
      ensures forall k | |old(trace)| <= k < |trace| :: Own(trace[k].zfs, job, peer) == Mine()
    {
      Others();
      var ok: bool := *;
      if !ok {
        failures := failures + 1;
        return None;
      }
      var rest, listed := set h | h in zfs.holds && h.snapshot in candidates, [];
      while rest != {}
        invariant forall h :: h in zfs.holds && h.snapshot in candidates <==> h in rest || h in listed
      {
        var h :| h in rest;
        rest, listed := rest - {h}, listed + [h];
      }
      forall x
        ensures Hold(x, StepHoldTag(job, peer)) in listed <==> x in candidates && x in Mine().tagged
      {
        TaggedMeansHeld(zfs, job, peer, x);
      }
      return Some(listed);
    }

    /** `zfs list -t bookmark` on the dataset. */
    method ListBookmarks() returns (r: Option<seq<string>>)
      requires Valid()
      modifies this`zfs, this`trace, this`failures
      ensures Valid() && old(trace) <= trace && Mine() == old(Mine())
      ensures failures == old(failures) + if r.Some? then 0 else 1
      ensures r.Some? ==> forall l :: l in r.value && IsCursorLeaf(l, job, peer) <==> l in Mine().cursors
      ensures forall k | |old(trace)| <= k < |trace| :: Own(trace[k].zfs, job, peer) == Mine()
    {
      Others();
      var ok: bool := *;
      if !ok {
        failures := failures + 1;
        return None;
      }
      var rest, listed := zfs.bookmarks.Keys, [];
      while rest != {}
        invariant forall l :: l in zfs.bookmarks <==> l in rest || l in listed
      {
        var l :| l in rest;
        rest, listed := rest - {l}, listed + [l];
      }
      return Some(listed);
    }

    // ----------------------------------------------------------- operations

    method Place(snapshot: string) returns (ok: bool)
      requires Valid()
      modifies this`zfs, this`trace, this`failures
      ensures Valid() && old(trace) <= trace
      ensures failures == old(failures) + if ok then 0 else 1
      ensures Mine() == old(Mine()) || Mine() == old(Mine()).(tagged := old(Mine()).tagged + {snapshot})
      ensures ok ==> snapshot in Mine().tagged
      ensures forall k | |old(trace)| <= k < |trace| ::
                Own(trace[k].zfs, job, peer) == old(Mine()) || Own(trace[k].zfs, job, peer) == Mine()
    {
      ok := HoldCall(snapshot);
    }

    /** The full names of the listed snapshots, and the extra ones. */
    ghost function Named(snapshots: seq<string>, extra: seq<string>): set<string> {
      (set s | s in snapshots :: dataset + "@" + s) + Elements(extra)
    }

    method Candidates(snapshots: seq<string>, extra: seq<string>) returns (names: seq<string>)
      ensures Elements(names) == Named(snapshots, extra)
    {
      names := [];
      for i := 0 to |snapshots|
        invariant forall x :: x in names <==> exists k :: 0 <= k < i && x == dataset + "@" + snapshots[k]
      {
        names := names + [dataset + "@" + snapshots[i]];
      }
      ghost var base := names;
      for i := 0 to |extra|
        invariant forall x :: x in names <==> x in base || x in extra[..i]
      {
        if extra[i] !in names {
          names := names + [extra[i]];
        }
      }
      assert extra[..|extra|] == extra;
    }

    /** Failures are only logged; without any, every stale tag is gone. */
    method Release(candidates: seq<string>, keep: seq<string>)
      requires Valid()
      modifies this`zfs, this`trace, this`failures
      ensures Valid() && old(trace) <= trace && old(failures) <= failures
      ensures Released(old(Mine()), Mine(), Elements(candidates), Elements(keep))
      ensures forall k | |old(trace)| <= k < |trace| ::
                Released(old(Mine()), Own(trace[k].zfs, job, peer), Elements(candidates), Elements(keep))
      ensures failures == old(failures) ==>
                Mine().tagged == old(Mine()).tagged - (Elements(candidates) - Elements(keep))
    {
      ghost var was := Mine();
      ghost var cs, ks := Elements(candidates), Elements(keep);
      var listed := ListHolds(candidates);
      if listed.None? {
        return;
      }
      var holds := listed.value;
      for n := 0 to |holds|
        invariant Valid() && old(trace) <= trace && old(failures) <= failures
        invariant Released(was, Mine(), cs, ks)
        invariant forall k | |old(trace)| <= k < |trace| :: Released(was, Own(trace[k].zfs, job, peer), cs, ks)
        invariant failures == old(failures) ==> forall m | 0 <= m < n ::
                    holds[m].tag == StepHoldTag(job, peer) && holds[m].snapshot !in keep ==> holds[m].snapshot !in Mine().tagged
      {
        if holds[n].tag == StepHoldTag(job, peer) && holds[n].snapshot !in keep {
          assert holds[n] == Hold(holds[n].snapshot, StepHoldTag(job, peer));
          var ok := ReleaseCall(holds[n].snapshot);
        }
      }
    }

    method SweepStale(snapshots: seq<string>, keep: seq<string>)
      requires Valid()
      modifies this`zfs, this`trace, this`failures
      ensures Valid() && old(trace) <= trace && old(failures) <= failures
      ensures Released(old(Mine()), Mine(), Named(snapshots, keep), Elements(keep))
      ensures forall k | |old(trace)| <= k < |trace| ::
                Released(old(Mine()), Own(trace[k].zfs, job, peer), Named(snapshots, keep), Elements(keep))
      ensures failures == old(failures) ==>
                Mine().tagged == old(Mine()).tagged - (Named(snapshots, keep) - Elements(keep))
    {
      var candidates := Candidates(snapshots, keep);
      Release(candidates, keep);
    }

    /** Destroy the listed cursors of the pair other than `cursor`. */
    method SweepCursors(leaves: seq<string>, cursor: string, guid: nat, ghost was: View)
      requires Valid() && Advanced(was, Mine(), cursor, guid)
      requires cursor in Mine().cursors && Mine().cursors[cursor] == guid
      modifies this`zfs, this`trace, this`failures
      ensures Valid() && old(trace) <= trace && old(failures) <= failures
      ensures Advanced(was, Mine(), cursor, guid)
      ensures cursor in Mine().cursors && Mine().cursors[cursor] == guid
      ensures Mine().cursors.Keys <= old(Mine()).cursors.Keys
      ensures forall k | |old(trace)| <= k < |trace| :: Advanced(was, Own(trace[k].zfs, job, peer), cursor, guid)
      ensures failures == old(failures) ==> forall l | l in leaves && l in Mine().cursors :: l == cursor
    {
      for n := 0 to |leaves|
        invariant Valid() && old(trace) <= trace && old(failures) <= failures
        invariant Advanced(was, Mine(), cursor, guid)
        invariant cursor in Mine().cursors && Mine().cursors[cursor] == guid
        invariant Mine().cursors.Keys <= old(Mine()).cursors.Keys
        invariant forall k | |old(trace)| <= k < |trace| :: Advanced(was, Own(trace[k].zfs, job, peer), cursor, guid)
        invariant failures == old(failures) ==> forall m | 0 <= m < n :: leaves[m] in Mine().cursors ==> leaves[m] == cursor
      {
        if leaves[n] != cursor && IsCursorLeaf(leaves[n], job, peer) {
          var ok := DestroyCall(leaves[n]);
        }
      }
    }

    /** Create the new cursor, then destroy the others. */
    method AdvanceCursor(guid: nat) returns (created: bool)
      requires Valid()
      modifies this`zfs, this`trace, this`failures
      ensures Valid() && old(trace) <= trace && old(failures) <= failures
      ensures Advanced(old(Mine()), Mine(), CursorLeaf(guid, job, peer), guid)
      ensures forall k | |old(trace)| <= k < |trace| ::
                Advanced(old(Mine()), Own(trace[k].zfs, job, peer), CursorLeaf(guid, job, peer), guid)
      ensures created ==> CursorLeaf(guid, job, peer) in Mine().cursors && Mine().cursors[CursorLeaf(guid, job, peer)] == guid
      ensures failures == old(failures) ==> created && Mine().cursors == map[CursorLeaf(guid, job, peer) := guid]
    {
      ghost var was := Mine();
      var cursor := CursorLeaf(guid, job, peer);
      LeafEndsInTail(guid, job, peer);
      created := CreateCall(cursor, guid);
      if !created {
        return false;
      }
      var listed := ListBookmarks();
      if listed.None? {
        return true;
      }
      ghost var present := Mine().cursors.Keys;
      assert forall l | l in present :: l in listed.value;
      SweepCursors(listed.value, cursor, guid, was);
      assert failures == old(failures) ==> forall l | l in Mine().cursors :: l == cursor;
    }

    method Commit(snapshots: seq<string>, to: string, guid: nat)
      requires Valid()
      modifies this`zfs, this`trace, this`failures
      ensures Valid() && old(trace) <= trace && old(failures) <= failures
      ensures forall k | |old(trace)| <= k < |trace| && old(Mine()).cursors != map[] ::
                Own(trace[k].zfs, job, peer).cursors != map[]
      ensures forall k | |old(trace)| <= k < |trace| && to in old(Mine()).tagged ::
                Recorded(Own(trace[k].zfs, job, peer), to, CursorLeaf(guid, job, peer), guid)
      ensures Mine().tagged <= old(Mine()).tagged
      ensures old(Mine()).tagged - Named(snapshots, [to]) <= Mine().tagged
      ensures failures == old(failures) ==>
                Mine() == View(old(Mine()).tagged - Named(snapshots, [to]), map[CursorLeaf(guid, job, peer) := guid])
    {
      var created := AdvanceCursor(guid);
      if created {
        var candidates := Candidates(snapshots, [to]);
        Release(candidates, []);
      } else {
        SweepStale(snapshots, [to]);
      }
    }

    /** Hold each end of the step in turn; the first failure ends the step. */
    method PlaceAll(ends: seq<string>) returns (ok: bool)
      requires Valid()
      modifies this`zfs, this`trace, this`failures
      ensures Valid() && old(trace) <= trace
      ensures failures == old(failures) + if ok then 0 else 1
      ensures Mine().cursors == old(Mine()).cursors
      ensures old(Mine()).tagged <= Mine().tagged <= old(Mine()).tagged + Elements(ends)
      ensures forall k | |old(trace)| <= k < |trace| :: Own(trace[k].zfs, job, peer).cursors == old(Mine()).cursors
      ensures ok ==> Mine().tagged == old(Mine()).tagged + Elements(ends)
    {
      for n := 0 to |ends|
        invariant Valid() && old(trace) <= trace && failures == old(failures)
        invariant Mine().cursors == old(Mine()).cursors
        invariant old(Mine()).tagged <= Mine().tagged <= old(Mine()).tagged + Elements(ends)
        invariant forall k | |old(trace)| <= k < |trace| :: Own(trace[k].zfs, job, peer).cursors == old(Mine()).cursors
        invariant forall m | 0 <= m < n :: ends[m] in Mine().tagged
      {
        var placed := Place(ends[n]);
        if !placed {
          return false;
        }
      }
      return true;
    }

    /** One step: hold both ends, sweep, send, commit. A failed step keeps its
        holds. `sendWorks` is the outcome of the send, if it comes to one.
        `placedAt` marks the moment both holds are in place, `sentAt` the end of
        the send. */
    method RunOneFilesystem(snapshots: seq<string>, from: Option<string>, to: string, guid: nat, sendWorks: bool)
      returns (outcome: StepResult, ghost placedAt: nat, ghost sentAt: nat)
      requires Valid()
      modifies this`zfs, this`trace, this`failures
      ensures Valid() && old(trace) <= trace && old(failures) <= failures
      ensures outcome == HoldFailed ==> failures > old(failures)
      ensures outcome != HoldFailed ==> (outcome == Sent <==> sendWorks)
      ensures forall k | |old(trace)| <= k < |trace| && old(Mine()).cursors != map[] ::
                Own(trace[k].zfs, job, peer).cursors != map[]
      ensures outcome != HoldFailed ==> |old(trace)| <= placedAt <= sentAt <= |trace|
      ensures outcome != HoldFailed ==>
                forall k | placedAt <= k < sentAt :: Elements(Ends(from, to)) <= Own(trace[k].zfs, job, peer).tagged
      ensures outcome != HoldFailed ==>
                forall k | sentAt <= k < |trace| ::
                  Recorded(Own(trace[k].zfs, job, peer), to, CursorLeaf(guid, job, peer), guid)
      ensures outcome == SendFailed ==>
                Mine().cursors == old(Mine()).cursors && Elements(Ends(from, to)) <= Mine().tagged
      ensures outcome == SendFailed && failures == old(failures) ==>
                Mine().tagged == old(Mine()).tagged - Named(snapshots, []) + Elements(Ends(from, to))
      ensures outcome == Sent && failures == old(failures) ==>
                Mine() == View(old(Mine()).tagged + Elements(Ends(from, to)) - Named(snapshots, [to]),
                               map[CursorLeaf(guid, job, peer) := guid])
    {
      placedAt, sentAt := 0, 0;
      var ends := Ends(from, to);
      var ok := PlaceAll(ends);
      if !ok {
        outcome := HoldFailed;
        return;
      }
      ghost var held := Mine();
      placedAt := |trace|;
      SweepStale(snapshots, ends);
      Others();
      sentAt := |trace|;
      assert Released(held, Mine(), Named(snapshots, ends), Elements(ends));
      assert to in Elements(ends);
      if !sendWorks {
        SweptTags(old(Mine()).tagged, snapshots, from, to);
        outcome := SendFailed;
        return;
      }
      Commit(snapshots, to, guid);
      SentTags(old(Mine()).tagged, snapshots, from, to);
      outcome := Sent;
    }

    lemma SweptTags(was: set<string>, snapshots: seq<string>, from: Option<string>, to: string)
      ensures var ends := Elements(Ends(from, to));
              was + ends - (Named(snapshots, Ends(from, to)) - ends) == was - Named(snapshots, []) + ends
    {
    }

    lemma SentTags(was: set<string>, snapshots: seq<string>, from: Option<string>, to: string)
      ensures var ends := Elements(Ends(from, to));
              was + ends - (Named(snapshots, Ends(from, to)) - ends) - Named(snapshots, [to])
              == was + ends - Named(snapshots, [to])
    {
      assert to in Ends(from, to);
    }

    /** Step after step, of any outcome: a cursor, once there, is there at every
        later moment; and holds do not pile up, for after a last step that swept
        without a failure and could not send, at most its two ends are held.
        `before` is the count of failures when that step began. */
    method RunSteps(steps: seq<Step>) returns (last: Option<StepResult>, ghost before: nat)
      requires Valid()
      modifies this`zfs, this`trace, this`failures
      ensures Valid() && old(trace) <= trace && old(failures) <= before <= failures
      ensures last.Some? <==> steps != []
      ensures forall k | |old(trace)| <= k < |trace| && old(Mine()).cursors != map[] ::
                Own(trace[k].zfs, job, peer).cursors != map[]
      ensures last == Some(HoldFailed) ==> failures > before
      ensures last.Some? && failures == before ==>
                var s := steps[|steps| - 1];
                if s.sendWorks then
                  && last == Some(Sent)
                  && Mine().cursors == map[CursorLeaf(s.guid, job, peer) := s.guid]
                  && Mine().tagged * Named(s.snapshots, []) == {}
                else
                  && last == Some(SendFailed)
                  && Mine().tagged * Named(s.snapshots, []) <= Elements(Ends(s.from, s.to))
                  && |Mine().tagged * Named(s.snapshots, [])| <= 2
    {
      last, before := None, failures;
      for n := 0 to |steps|
        invariant Valid() && old(trace) <= trace && old(failures) <= before <= failures
        invariant last.Some? <==> n > 0
        invariant old(Mine()).cursors != map[] ==> Mine().cursors != map[]
        invariant forall k | |old(trace)| <= k < |trace| && old(Mine()).cursors != map[] ::
                    Own(trace[k].zfs, job, peer).cursors != map[]
        invariant last == Some(HoldFailed) ==> failures > before
        invariant n > 0 && failures == before ==> LastStepHolds(steps[n - 1], last.value)
      {
        before := failures;
        var outcome;
        ghost var placedAt, sentAt;
        outcome, placedAt, sentAt :=
          RunOneFilesystem(steps[n].snapshots, steps[n].from, steps[n].to, steps[n].guid, steps[n].sendWorks);
        last := Some(outcome);
        assert Mine() == Own(trace[|trace| - 1].zfs, job, peer);
      }
      if steps != [] && failures == before {
        var s := steps[|steps| - 1];
        if !s.sendWorks {
          AtMostTwo(Mine().tagged * Named(s.snapshots, []), s.from, s.to);
        }
      }
    }

    /** What a step without failures leaves. */
    ghost predicate LastStepHolds(s: Step, outcome: StepResult)
      reads this
    {
      if s.sendWorks then
        && outcome == Sent
        && Mine().cursors == map[CursorLeaf(s.guid, job, peer) := s.guid]
        && Mine().tagged * Named(s.snapshots, []) == {}
      else
        && outcome == SendFailed
        && Mine().tagged * Named(s.snapshots, []) <= Elements(Ends(s.from, s.to))
    }
  }
}
