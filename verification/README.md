# arctern replication, modelled and proved

arctern replicates ZFS datasets between hosts. A sender and a receiver share no
database: each cycle re-reads snapshots, holds, bookmarks and resume tokens
while prune jobs run beside it. This project models that engine in Dafny and
proves what keeps it correct. `dafny verify dfyconfig.toml` checks everything.

## What is modelled

| module | part of arctern |
|---|---|
| `Plan` | the planner of one push step |
| `Names` | hold tags and cursor bookmark names |
| `Protocol`, `Witness`, `WitnessLimits` | the push protocol of one (dataset, job, peer) as a step system, one event per ZFS call, with crashes, broken streams and both prune jobs |
| `CatchUp` | the catch-up loop of one dataset |
| `Holds` | step holds, the cursor bookmark and the order of a step, call by call |
| `PushCycle`, `RecvAncestors` | a whole cycle over many datasets, and the ancestors a receive creates |
| `RecvLock`, `RecvHold` | admission to a receive target, the last-received hold, and the prune pass that races it |
| `Retention`, `RetentionLaws`, `Prune`, `PruneRuns`, `GridParse` | the retention grid, keep rules, both over runs, the grid parser |
| `Limiter` | the bandwidth limiter shared by parallel sends |
| `Scheduler`, `PeerLink` | when a job runs, and the link to a peer |

ZFS is represented by what the source relies on. A held snapshot is not
destroyed. `zfs recv` without `-F` takes a full stream only into an absent
target and a delta only onto the receiver's newest snapshot. GUIDs are unique,
and creation order is by txg. Any ZFS call may fail; in `Holds`, `RecvHold`,
`RecvLock` and `RecvAncestors` a failed call may also have taken effect. Other
processes act between any two calls, within the part the module states as
theirs. Nondeterministic assignments stand for their choices, for the clock and
for network results.

Pure source code is a function here, code that works step by step is a method
with loops, and an object whose fields change is a class. Runs of several
processes are sequences of events with a transition function. Each method is
proved against a specification function or a stated new state, and the lemmas
beside it say what that means. Where ZFS calls may fail, the state counts the
failures, so that "without failures" is a statement about the calls made and not
about what an operation reports of itself.

## What the proofs found

Some properties do not hold of the code as it stands. Each has a lemma with a
run or an input, and the property is proved under the exact or a sufficient
condition.

- In `latest` mode a step from a shared bookmark can run backwards in time:
  the fallback takes the newest filtered snapshot as `to` without comparing it
  with the bookmark (`Plan.LatestBookmarkStepCanRunBackwards`). In `all` mode a
  delta always moves forward, in `latest` mode exactly when the newest filtered
  snapshot is younger than every bookmark shared with the receiver
  (`Plan.DeltaMovesForward`). A pair in that state makes no progress: with
  working steps the catch-up loop of a pair that can be synced converges exactly
  when the first round can advance or has nothing left to send, and fails
  without sending anything otherwise (`CatchUp.CatchUpConverges`).
- A first sync whose partial state can no longer be resumed ends in
  `Placeholder` on every later cycle; the discard that would clear it is never
  sent (`Plan.SnapshotlessTarget`).
- The sender can lose the last common point in four ways. The receiver may
  still be ingesting a stream that its sender gave up on, while the next step
  has read the receiver and sweeps the old hold
  (`WitnessLimits.OrphanedReceiveLosesTheWitness`). A process that has landed its
  stream hands its tag over after the lock is free, and may take the tag off the
  snapshot that the next process has just landed
  (`WitnessLimits.LateHandOverLosesTheWitness`). The call that places the tag may
  fail, and the receive is still answered as a success
  (`WitnessLimits.UnheldLandingLosesTheWitness`). Or a `-I` stream breaks after an
  intermediate snapshot landed (`WitnessLimits.PartialLandingLosesTheWitness`).
  Without these four, and with a stream and its tag landing at once, the point is
  never lost (`Witness.WitnessOverEveryRun`).
- The marker check on job and peer names does not by itself keep cursors apart.
  Over all accepted names, job `j'` claims for peer `p'` the cursors of job `j`
  for peer `p` in exactly these cases (`Names.CursorClaimedIff`): it is the same
  pair; a `P_` in front of one peer is a `_P` behind the other job, and the two
  write the very same names (`Names.PeerNamedAfterMarkerCollides`); `j` is `J_x`
  and one of these holds of `x` (`Names.JobNamedAfterMarkerIsClaimed`); or `j` is
  `J` or ends in `_J`, `j'` is `P`, and `p` is `P_` and `p'`
  (`Names.JobNamedPClaims`).
- A second prune may drop what the first one kept, when the newest entry itself
  went (`RetentionLaws.RefitCanDropMore`).
- The receive lock is dropped before the last-received hold is handed over. Two
  hand-overs under way at once lose every tag exactly when each takes its second
  turn, the listing, after the other's first, the placing
  (`RecvHold.TwoHandOversLoseEveryTagIff`).
- `zfs recv` does not inherit the lock file, so nothing in the locking keeps a
  later channel from aborting a child that outlived its dispatcher
  (`RecvLock.SurvivingChildIsAborted`).
- A parent with nothing to send is left as a placeholder by its child
  (`PushCycle.EmptyParentLeavesPlaceholder`).
- A job oversleeps a peer's due time exactly when another peer is already due
  but blocked and the next one falls inside the five-minute retry
  (`Scheduler.OversleepsIff`; a job that does, `Scheduler.OversleepingJob`).
- A cancelled attempt does not always hold off automatic ones. After any attempt
  they wait a cadence from it exactly while the newest attempt is a cancelled one
  or some success is no older (`Scheduler.AutoWaitsIff`); so a failure after the
  cancel drops it (`Scheduler.FailureForgetsTheCancel`), and a later cancel or
  success brings the wait back.
- A cycle stops at the first check that finds it cancelled, before its first
  peer if it comes to that, with the manual requests already taken from the
  queue: exactly the peers before that check are attempted
  (`Scheduler.PushJob.RunCycle`; a job that loses its only request,
  `Scheduler.DroppedRequest`).

Where comments and code differ the code is followed. The comment in
`retention.rs` that future-dated entries are kept describes a branch that is
never taken, because `now` is the newest creation time in the list.

## Model

| member | source | states |
|---|---|---|
| Plan.LastCommon | daemon/src/jobs/push/plan.rs:169-170 | the highest filtered snapshot the receiver has, or that it has none |
| Plan.BestBookmark | daemon/src/jobs/push/plan.rs:246-250 | the youngest bookmark shared with the receiver, or that none is |
| Plan.LaterBookmarkOnATie | daemon/src/jobs/push/plan.rs:246-250 | of several shared bookmarks as young, the last listed one is taken |
| Plan.FirstAfter | daemon/src/jobs/push/plan.rs:256-264 | the oldest filtered snapshot younger than a bookmark base |
| Plan.DeltaBaseIsNewestCommon | daemon/src/jobs/push/plan.rs:150-279 | the base of every delta is the newest point, over filtered snapshots and bookmarks, that both sides can name, a bookmark only when no filtered snapshot is that point; `to` is a filtered snapshot |
| Plan.DeltaMovesForward | daemon/src/jobs/push/plan.rs:212-279 | in `all` mode a delta always moves forward in creation order; in `latest` mode if and only if the newest filtered snapshot is younger than every bookmark shared with the receiver |
| Plan.EmittedDeltaIsReceivable | daemon/src/jobs/push/plan.rs:150-279 | when the sender can name the receiver's newest snapshot a delta starts there, and `zfs recv` without `-F` accepts it if and only if the mode is `all` or the condition above holds |
| Plan.IntermediatesIff | daemon/src/jobs/push/plan.rs:175-200 | `latest` mode never sends `-I`; in `all` mode a delta over a snapshot is `-I` if and only if some filtered snapshot lies strictly between its ends |
| Plan.LatestBookmarkStepCanRunBackwards | daemon/src/jobs/push/plan.rs:246-279 | an input in `latest` mode whose delta ends before its base |
| Plan.FullIffTargetAbsent | daemon/src/jobs/push/plan.rs:435-456 | a full stream is planned exactly for an absent target, without the discard flag, to the oldest (`all`) or newest (`latest`) filtered snapshot |
| Plan.SnapshotlessTarget | daemon/src/jobs/push/plan.rs:435-456 | a target without snapshots is resumed when its token is live and refused as a placeholder otherwise |
| Plan.DivergedIffNothingShared | daemon/src/jobs/push/plan.rs:435-542 | divergence is reported if and only if nothing is resumable and no point is shared |
| Plan.NothingMeansCaughtUp | daemon/src/jobs/push/plan.rs:150-279 | nothing is sent only when the receiver has the newest filtered snapshot or shares a bookmark as young as all of them |
| Plan.ResumeOrDiscardIsExact | daemon/src/jobs/push/plan.rs:281-311 | a step resumes if and only if the token decodes, its `to` is a filtered snapshot and its base, if any, is one or a bookmark; otherwise the discard flag is set exactly when there was a token, through the bookmark fallback |
| Plan.HeaderCarriesTheDecision | daemon/src/jobs/push/plan.rs:313-383 | the wire header carries the discard flag exactly for a token that is not resumed, and a resume header never carries it |
| Plan.ArgsAndHeaderAgree | daemon/src/jobs/push/plan.rs:385-429 | the `zfs send` arguments and the header agree: the same kind, the same send flags, the same snapshots by name, a base written with `#` for a bookmark; a resume sends the plan's token under the name and GUID the token decodes to |
| Plan.FallbackKeepsListedHead | daemon/src/jobs/push/plan.rs:549-584 | the bookmark fallback leaves a plan alone when the receiver's head is a filtered sender snapshot |
| Names.CursorClaimedIff | daemon/src/jobs/push/holds.rs:18-26 | for all accepted names, the exact condition under which a pair claims the cursors of another |
| Names.StepTagsAreEqualIff | daemon/src/jobs/push/holds.rs:11-13 | for all accepted names, the exact condition under which two pairs write the same step tag |
| Names.CursorNamesItsGuid | daemon/src/jobs/push/holds.rs:15-20 | two cursors of a pair have the same name if and only if they have the same GUID |
| Names.HexReadsBack | daemon/src/jobs/push/holds.rs:19 | the hexadecimal form of a GUID reads back to it |
| Names.LastTagNamesTheJob | daemon/src/stdinserver/recv.rs:175-177 | last-received tags of two jobs are equal if and only if the jobs are, and are never step tags |
| Names.InnerTailIff | crates/config/src/lib.rs:301-333 | exactly which other tails a tail of accepted names ends in |
| Names.TailsAreEqualIff | crates/config/src/lib.rs:301-333 | job and peer can be read back out of a tail, up to a `P_` of the peer read as a `_P` of the job |
| Names.CursorOwnershipIsExact | daemon/src/jobs/push/holds.rs:11-26 | so, with no job starting with `J_` and no peer starting with `P_`, a pair claims a cursor leaf and shares a step tag if and only if it built it |
| Names.JobNamedAfterMarkerIsClaimed | crates/config/src/lib.rs:313-333 | every job `J_x` is accepted and has its cursors claimed by job `x` |
| Names.PeerNamedAfterMarkerCollides | daemon/src/jobs/push/holds.rs:18-20 | for all accepted short names that avoid the marker's ends, two different accepted pairs write the very same cursor |
| Names.JobNamedPClaims | daemon/src/jobs/push/holds.rs:22-26 | for the same names, job `P` claims the cursors of an accepted job that ends in `_J` |
| Protocol.BetweenIsComplete | daemon/src/jobs/push/plan.rs:30-60 | a `-I` stream carries every snapshot strictly between its ends |
| Protocol.BetweenAscends | daemon/src/jobs/push/plan.rs:30-60 | and carries them in creation order |
| Witness.WitnessOverEveryRun | daemon/src/jobs/push/holds.rs:42-118 | over every run, with crashes between any two calls, in which the receiver is not read during an ingest, no stream is admitted during a hand-over, broken streams leave nothing complete and landed ones get their tag: once a stream has landed the sender has its own cursor of the receiver's newest snapshot, or that snapshot under the step hold, and the receiver's newest snapshot carries the last-received tag |
| Witness.IncrementalityIsNeverLost | daemon/src/jobs/push/mod.rs:11-25 | after such a run the next plan is no refusal and no full resend; its delta starts at the receiver's newest snapshot and is accepted when it moves forward; its resume matches the partial state |
| Witness.StepKeepsInvariant | daemon/src/jobs/push/step.rs:254-323 | every single call and every event around it keeps the protocol's invariant |
| Witness.RunKeepsInvariant | daemon/src/jobs/push/step.rs:135-323 | so does every run |
| Witness.PlanKeepsTheHead | daemon/src/jobs/push/plan.rs:201-279 | the plan a step executes keeps the hold that serves as the witness |
| WitnessLimits.OrphanedReceiveLosesTheWitness | daemon/src/jobs/push/step.rs:254-323 | a reachable state without a witness when the receiver is read while a receive outlives its sender |
| WitnessLimits.LateHandOverLosesTheWitness | daemon/src/stdinserver/recv.rs:134-165 | a reachable state without a witness when a late hand-over untags the snapshot of the next stream, which is then pruned |
| WitnessLimits.UnheldLandingLosesTheWitness | daemon/src/stdinserver/recv.rs:184-195 | a reachable state in which both sides share no snapshot and no bookmark, after a landed stream went untagged and was answered as a success |
| WitnessLimits.PartialLandingLosesTheWitness | daemon/src/jobs/push/plan.rs:30-60 | a reachable state without a witness after a partly landed `-I` stream |
| CatchUp.ReplicateOne | daemon/src/jobs/push/mod.rs:621-657 | the loop computes the recursive form over at most sixteen steps and reports the limit only after that many streams; a dry run stops after its first step and moves nothing |
| CatchUp.DryRunSaysWhatIsPlanned | daemon/src/jobs/push/mod.rs:660-834 | a dry run moves nothing, reports nothing to do exactly when a step would, and fails exactly when planning does |
| CatchUp.RoundsIff | daemon/src/jobs/push/mod.rs:621-657 | for any step, the report is that of the unique course of worlds in which every round streams without a cancellation until one finds nothing, fails, is followed by a cancellation, or is the last allowed; it counts those streams |
| CatchUp.CancelledRoundIsTheLast | daemon/src/jobs/push/mod.rs:644-646 | no stream follows a cancelled round |
| CatchUp.FailingRoundIsTheLast | daemon/src/jobs/push/mod.rs:636-643 | a failing round is reported with the streams before it |
| CatchUp.FailureSaysAbsentIff | daemon/src/jobs/push/mod.rs:697-701 | a step that does not advance changes nothing, and its failure says `target_absent` if and only if the target is absent, which is when a full send was planned |
| CatchUp.LatestAddsOne | daemon/src/jobs/push/plan.rs:175-200 | in `latest` mode a stream that is no resume adds exactly the newest filtered snapshot to the receiver |
| CatchUp.LandedIsCommitted | daemon/src/jobs/push/holds.rs:68-118 | with working calls a landed stream leaves its end as the pair's only cursor, and every other bookmark |
| CatchUp.CatchUpConverges | daemon/src/jobs/push/mod.rs:621-657 | with working steps the loop catches up if and only if the mode is `all`, the receiver is empty, a partial state resumes, the newest filtered snapshot is younger than every shared bookmark, or the receiver has it already; then after at most two streams the receiver's head is as young as anything listed and in `all` mode nothing younger than the starting base was left out; otherwise the first step fails and nothing is sent |
| CatchUp.StepFromListedHead | daemon/src/jobs/push/mod.rs:660-834 | one step from a receiver whose head is listed ends the loop or delivers the newest listed snapshot, and in `all` mode everything in between |
| CatchUp.LandedIsConsistent | daemon/src/jobs/push/mod.rs:660-834 | a received stream leaves the receiver ordered, without partial state, and with all it had |
| CatchUp.DeltaSkipsNothing | daemon/src/jobs/push/plan.rs:212-279 | in `all` mode the first delta passes over no younger snapshot |
| CatchUp.FinishFromListedHead | daemon/src/jobs/push/mod.rs:621-657 | from a listed head one more stream at most |
| Holds.HoldScope.Place | daemon/src/jobs/push/holds.rs:44-46 | adds at most this pair's tag on one snapshot |
| Holds.HoldScope.Candidates | daemon/src/jobs/push/holds.rs:123-134 | exactly the full names of the listed snapshots and the extra ones |
| Holds.HoldScope.Release | daemon/src/jobs/push/holds.rs:138-156 | at every moment only tags of candidates outside `keep` are gone; when no call failed all of them are |
| Holds.HoldScope.SweepStale | daemon/src/jobs/push/holds.rs:57-60 | the same over the listed snapshots: when no call failed only the kept ones are left tagged |
| Holds.HoldScope.AdvanceCursor | daemon/src/jobs/push/holds.rs:87-118 | at every moment the cursors are the old ones, or include the new one; when no call failed the new one is the only one |
| Holds.HoldScope.Commit | daemon/src/jobs/push/holds.rs:68-80 | at every moment a cursor exists if one did, and the hold on `to` is gone only once the new cursor exists; when no call failed the pair has exactly the new cursor and no tag on a candidate |
| Holds.HoldScope.RunOneFilesystem | daemon/src/jobs/push/step.rs:254-323 | both ends stay held until the send is over; afterwards `to` stays recorded at every moment; when no call failed, a failed send leaves exactly its two ends tagged among the listed and a working one the new cursor alone; the step is abandoned before the send only after a failed call |
| Holds.HoldScope.RunSteps | daemon/src/jobs/push/holds.rs:48-80 | over any run of steps a cursor, once there, is there at every later moment; when no call of the last step failed, at most its two ends are held among its listed snapshots, and none if it sent |
| Holds.AnotherPairIsUntouched | daemon/src/jobs/push/holds.rs:22-26 | no call for one pair removes a cursor or a hold another pair placed, for any accepted names under which it does not claim the other's cursors |
| PushCycle.DepthLevels | daemon/src/jobs/push/mod.rs:162-171 | non-empty levels of equal depth, shallowest first, each in input order, covering all paths |
| PushCycle.LevelsConserveThePaths | daemon/src/jobs/push/mod.rs:162-171 | grouping loses and repeats nothing |
| PushCycle.AncestorIsShallower | daemon/src/jobs/push/mod.rs:157-177 | an ancestor lies in an earlier level |
| PushCycle.ParentsComeFirst | daemon/src/jobs/push/mod.rs:531-608 | in every interleaving each selected ancestor of a running dataset has its target, unless planning it failed to list or found nothing to send |
| PushCycle.NoPlaceholders | daemon/src/jobs/push/mod.rs:553-607 | where planning always finds something no receive creates a selected dataset's target |
| PushCycle.QueueNeverUnderflows | daemon/src/jobs/push/mod.rs:558-605 | the queue counter equals the unclaimed work, never passes below zero and ends at zero |
| PushCycle.RoundKeepsInvariant | daemon/src/jobs/push/mod.rs:660-834 | one planning round of a dataset, with any outcome of its stream, keeps the cycle's invariant |
| PushCycle.StartedIff | daemon/src/jobs/push/mod.rs:558-607 | a claimed dataset is started if and only if the cycle is not cancelled and no ancestor's first send failed; otherwise it is done with |
| PushCycle.BlockedIff | daemon/src/jobs/push/mod.rs:558-607 | a round holds descendants back exactly when a full send was planned and did not land |
| PushCycle.NothingStartsAfterCancel | daemon/src/jobs/push/mod.rs:558-607 | over any run after a cancellation no further dataset is started |
| PushCycle.EmptyParentLeavesPlaceholder | daemon/src/jobs/push/mod.rs:698-715 | a lawful run in which an empty parent is created by its child |
| RecvAncestors.CreatableAncestors | daemon/src/stdinserver/recv.rs:264-281 | exactly the proper ancestors of the target strictly below the root, each an ancestor of the next |
| RecvAncestors.CreatableMirrorsAncestors | daemon/src/stdinserver/recv.rs:260-281 | under the root these are exactly the targets of the dataset's own ancestors |
| RecvAncestors.PoolEndsAtTheFirstSlash | daemon/src/stdinserver/recv.rs:264-281 | without a root the pool is what precedes the first slash |
| RecvAncestors.Host.EnsureReceiveAncestors | daemon/src/stdinserver/recv.rs:292-335 | succeeds if and only if no call fails, and then all of them exist and nothing else is new; no dataset that exists is created; a failed probe changes nothing |
| RecvHold.Dataset.AdvanceLastHold | daemon/src/stdinserver/recv.rs:184-226 | some snapshot carries the job's tag at every moment once one did; when no call failed only the new one does |
| RecvHold.Dataset.PruneDataset | daemon/src/jobs/mod.rs:222-292 | every destroy is of a snapshot the rules condemn and takes away none that is held or busy; when no call failed the pass finished, unless a pattern is invalid, and a finished pass tried all of them |
| RecvHold.ChooseTargets | daemon/src/jobs/mod.rs:241-267 | condemned indices name the right snapshots although undatable rows are skipped |
| RecvHold.ChosenByTag | daemon/src/jobs/mod.rs:241-267 | for any rows of one dataset, a snapshot is chosen if and only if the rules condemn it in the listing that holds the tag and creation of each datable row, in order |
| RecvHold.BareTagOfFullName | daemon/src/jobs/mod.rs:257 | what is judged of `dataset@tag` is `tag` |
| RecvHold.CollectEntries | daemon/src/jobs/mod.rs:241-266 | the two parallel vectors stay aligned |
| RecvHold.PrunesKeepEveryTag | daemon/src/jobs/mod.rs:273-289 | any number of prune steps leave every tag on a snapshot that still exists |
| RecvHold.TwoHandOversLoseEveryTagIff | daemon/src/stdinserver/recv.rs:134-165 | over every schedule with at least three turns for each of two hand-overs, no tag is left if and only if each has its second turn after the other's first |
| RecvHold.HandOversInStepLoseEveryTag | daemon/src/stdinserver/recv.rs:184-226 | a schedule in which that happens |
| RecvLock.ReceivesAreSerial | daemon/src/stdinserver/recv_lock.rs:40-68 | over any interleaving with deaths anywhere, one holder per dataset and a serial history of (abort?, receive) episodes |
| RecvLock.RefusedOnlyByAHolder | daemon/src/stdinserver/recv_lock.rs:58-67 | a waiting process is refused if and only if a live process holds the dataset |
| RecvLock.SurvivingChildIsAborted | daemon/src/stdinserver/recv_lock.rs:50-57 | a run in which a child outlives its process and is aborted |
| RecvLock.NextKeepsInvariant | daemon/src/stdinserver/control.rs:97-121 | every step of a channel or a discard request keeps locks and history in agreement |
| RecvLock.Receiver.Acquire | daemon/src/stdinserver/recv_lock.rs:40-68 | the lock is taken only when free; an error changes nothing |
| RecvLock.Receiver.Drive | daemon/src/stdinserver/recv.rs:337-401 | when no call failed the stream is received, after its abort if it asked for one, unless the header, the lock or the grant forbids it, and nothing else happens; whatever fails, the lock is dropped and the history gains one episode or a harmless part of one; a broken copy is an error even though the stream has landed |
| Retention.Fit | crates/config/src/grid/retention.rs:48-125 | keep and destroy are ascending and say exactly what the grid keeps: rank from the old end of the bucket below its count |
| Retention.BucketsAreDisjoint | crates/config/src/grid/retention.rs:62-84 | no age lies in two buckets, so the first match is the only one |
| Retention.BucketsTile | crates/config/src/grid/retention.rs:62-84 | every age inside the window lies in a bucket |
| Retention.ThinBucket | crates/config/src/grid/retention.rs:103-121 | one bucket is thinned to exactly its oldest entries |
| Retention.PlaceEntry | crates/config/src/grid/retention.rs:86-99 | an entry goes to the one bucket that contains it, or to none exactly outside the window |
| Retention.MakeBuckets | crates/config/src/grid/retention.rs:60-84 | bucket bounds are the running sums of the interval lengths |
| RetentionLaws.DroppedHasKeeper | crates/config/src/grid/retention.rs:101-121 | a destroyed entry inside the window has a kept one in its bucket, no younger and less than the bucket's length away |
| RetentionLaws.KeptLiesInWindow | crates/config/src/grid/retention.rs:86-99 | nothing as old as the sum of the lengths is kept |
| RetentionLaws.KeepsAtMostSumOfCounts | crates/config/src/grid/retention.rs:101-121 | a grid of counts keeps at most their sum |
| RetentionLaws.OldestSurvivesRounds | crates/config/src/grid/retention.rs:8-18 | over any run of new snapshots and rounds of the grid the oldest retained entry stays until its age reaches the window |
| RetentionLaws.RoundLeavesAtMost | crates/config/src/grid/retention.rs:48-125 | what a round leaves lies in the window and, for counts, numbers at most their sum |
| RetentionLaws.RefitDropsNothing | crates/config/src/grid/retention.rs:48-125 | if the newest entry is kept, fitting the survivors again drops nothing |
| RetentionLaws.KeepAllFirstSparesNewest | crates/config/src/grid/retention.rs:101-106 | which a leading `keep=all` interval guarantees |
| RetentionLaws.RefitCanDropMore | crates/config/src/grid/retention.rs:56-58 | a grid and a list where a second fit drops more |
| Prune.DestroySet | crates/config/src/prune.rs:45-90 | exactly the entries the rule wants gone, grid indices lifted from the matching sublist, or the pattern that does not compile |
| Prune.LiftKept | crates/config/src/prune.rs:52-72 | judging the matching sublist alone is judging the matching entries in place |
| Prune.Evaluate | crates/config/src/prune.rs:103-118 | exactly the indices every rule destroys, ascending; none without rules; else the first bad pattern |
| Prune.AddingARuleDestroysNoMore | crates/config/src/prune.rs:96-118 | a further rule never destroys more, unless there was none |
| Prune.DefaultRulesSpareOthers | crates/config/src/lib.rs:132-190 | with default rules a snapshot of another prefix goes if and only if `protect_non_prefixed` is off |
| Prune.NewestSurvivesItsPrune | crates/config/src/lib.rs:569-590 | under the first-bucket check a snapshot taken an interval after every other matching one survives the prune that follows |
| Prune.FailingTheCheckLosesTheNewest | crates/config/src/lib.rs:569-590 | a one-count grid that fails the check loses it |
| PruneRuns.PassIsARound | crates/config/src/prune.rs:103-118 | a prune pass under any rules, over a listing of matching and other snapshots, is a round of each of its grid rules on that rule's matching history |
| PruneRuns.LonePassIsARuleAlone | crates/config/src/prune.rs:103-118 | under that rule alone and without holds it is exactly such a round, so the bounds on what a round leaves apply |
| PruneRuns.RunIsRounds | daemon/src/jobs/mod.rs:222-292 | any run of passes, each from what the one before left, is a run of rounds |
| PruneRuns.OldestSurvivesPrunes | crates/config/src/grid/retention.rs:8-18 | over any run of prunes as `evaluate` decides them, whatever other rules and holds there are, the oldest snapshot a grid rule matches is not destroyed before its age reaches that grid's window |
| GridParse.Parse | crates/config/src/grid/mod.rs:66-179 | the exact verdict: empty, the first fault in term order, the first drop in length, or the expansion of all terms |
| GridParse.ExpandTerms | crates/config/src/grid/mod.rs:76-151 | each term's interval as often as its count, in order |
| GridParse.TermIsGoodIff | crates/config/src/grid/mod.rs:76-151 | a term stands for n times an interval if and only if it is well formed, its numbers are positive and within 32 bits, and the interval keeps what the modifier says, one entry without a modifier |
| GridParse.TermFaultIff | crates/config/src/grid/mod.rs:76-151 | and otherwise for the first of its faults in a fixed order |
| GridParse.CheckOrder | crates/config/src/grid/mod.rs:157-176 | rejects exactly at the first drop that follows a counted interval |
| GridParse.AcceptedGridsAreValid | crates/config/src/grid/mod.rs:102-151 | an accepted grid has no zero length and no zero count, and is not empty |
| GridParse.NoDropIffSettles | crates/config/src/grid/mod.rs:157-176 | the neighbour check is a global one: from the first counted interval on, lengths never decrease |
| Limiter.RateLimiter.Throttle | daemon/src/jobs/push/limiter.rs:30-47 | one call refills, caps, charges and returns the sleep that pays the debt |
| Limiter.AccountMovesDue | daemon/src/jobs/push/limiter.rs:30-47 | the bucket refines a virtual finishing time, and a sleep ends when it is reached |
| Limiter.LevelStaysBounded | daemon/src/jobs/push/limiter.rs:6-10 | with N senders and chunks of at most c the level stays between -N*c and the burst, and finishing times never decrease |
| Limiter.SharedRateBound | daemon/src/jobs/push/limiter.rs:6-10 | bytes accounted in any window are at most burst + rate * length + N*c |
| Scheduler.AutoWaitsAfterSuccess | daemon/src/jobs/push/mod.rs:297-316 | after a success no automatic attempt starts for a cadence, whatever happens in between |
| Scheduler.AutoWaitsIff | daemon/src/jobs/push/mod.rs:297-316 | after any attempt of any history in time order, however it ended, an automatic one waits a cadence from it if and only if the newest attempt was cancelled or some success is no older; counting from the newest attempt on, also if that long has passed |
| Scheduler.AutoWaitsWhileRemembered | daemon/src/jobs/push/mod.rs:306-316 | so no automatic attempt of a scheduled history starts within a cadence of an earlier one that is remembered by then |
| Scheduler.FailureForgetsTheCancel | daemon/src/jobs/push/mod.rs:306-316 | the shortest history that is not remembered: after a cancelled and a failed attempt a peer is due exactly by its last success before them |
| Scheduler.PushJob.EachTargetOnce | daemon/src/jobs/push/mod.rs:422-473 | every target is selected at most once, by its request or by its schedule |
| Scheduler.PushJob.EachComplaintOnce | daemon/src/jobs/push/mod.rs:422-473 | errors are exactly the requests without a link and the stale auto targets |
| Scheduler.PushJob.SelectTargets | daemon/src/jobs/push/mod.rs:422-473 | empties the requests; a manual selection for exactly the requested targets with a link, an automatic one for exactly the other targets that are auto peers of an unpaused job, linked over an auto-eligible route, and a cadence past their anchor if they have one; an error for exactly the requested targets without a link and the auto targets out of reach for three cadences |
| Scheduler.OversleepsIff | daemon/src/jobs/push/mod.rs:860-880 | a nap is at least ten seconds, and wakes no later than a future due time, or is that shortest one, if and only if no automatic peer is due already or the time lies beyond the five-minute retry |
| Scheduler.NapIs | daemon/src/jobs/push/mod.rs:860-880 | five minutes when a peer is due already, else until the first is due, within the fallback and the floor |
| Scheduler.OversleepingJob | daemon/src/jobs/push/mod.rs:860-880 | a job with those due times |
| Scheduler.PushJob.NextWake | daemon/src/jobs/push/mod.rs:860-880 | the loop over the targets computes the nap of the automatic peers' due times |
| Scheduler.PushJob.RequestPush | daemon/src/jobs/push/mod.rs:1030-1043 | accepted exactly for a configured target, and then queued |
| Scheduler.PushJob.Record | daemon/src/jobs/push/mod.rs:498-519 | an attempt extends its peer's history as scheduled and touches no other |
| Scheduler.PushJob.RunCycle | daemon/src/jobs/push/mod.rs:475-527 | a selected peer is attempted if and only if no cancellation came before its turn, at whatever point of the cycle; each attempted one is recorded once with the status its errors and the cancellation give, no other peer is touched, and requests made meanwhile stay queued |
| Scheduler.DroppedRequest | daemon/src/jobs/push/mod.rs:483-486 | a job whose only request is selected and taken from the queue but never attempted |
| Scheduler.PushJob.RunAndRecord | daemon/src/jobs/push/mod.rs:882-937 | a turn selects and complains as stated, attempts exactly the selected peers before a cancellation and extends their histories as scheduled; a paused job without requests does nothing |
| Scheduler.PushJob.RunTurns | daemon/src/jobs/push/mod.rs:1045-1092 | over any run of requests, pauses and turns histories only grow, and every peer's automatic attempts start a cadence after every earlier attempt that `AutoWaitsIff` says is remembered |
| PeerLink.DelayDoublesToAMinute | daemon/src/peer/reconnect.rs:31-36 | the retry delay starts at one second and doubles until it stays at sixty |
| PeerLink.Reconnector.ConnectRanked | daemon/src/peer/reconnect.rs:53-85 | connects if and only if the first route that does not refuse lets it in, and over that one, with all before it marked failed with their errors and no other route touched |
| PeerLink.Reconnector.Rest | daemon/src/peer/reconnect.rs:123-202 | what one sleep on a connected route leads to: nothing during a send, the link down on a failed probe, every fourth time the first better route that answers; published if and only if something changed |
| PeerLink.Reconnector.Park | daemon/src/peer/reconnect.rs:106-202 | ends at the first failed probe, or else only when cancelled, on the route its sleeps lead to |
| PeerLink.HoldsIff | daemon/src/peer/reconnect.rs:123-170 | the link holds for n sleeps if and only if no probe in them fails |
| PeerLink.Reconnector.RunForPeer | daemon/src/peer/reconnect.rs:88-243 | every entry ever published is coherent: connected, link and active route go together, with exactly the named route up; the loop ends only when cancelled, publishes a failure a sleep while no route answers, and a connection once one does |
| PeerLink.PeersState.Publish | daemon/src/peer/state.rs:123-130 | replaces one entry and moves the change counter |
| PeerLink.SwitchesAreBounded | daemon/src/peer/reconnect.rs:169-202 | between two disconnects there are at most as many connected entries as routes |

## Left out

- SSH, tarpc, HTTP, SQLite, process spawning and argument execution: plumbing, represented by calls that may fail.
- Access control, fingerprints, sessions and the admin user interface: other concerns with one-branch decisions.
- Regular expressions, durations, TOML and `parse_bytes_per_sec`: a pattern is a predicate with a validity flag, a prefix pattern a prefix test, a duration a number; the grid parser starts from split, matched terms.
- Status rendering, log events, transfer history, `filter.rs` and `cancellable_now`: easy members. Selected paths are taken as resolved and duplicate-free.
- Saturation of `OffsetDateTime` at the end of its range, 64-bit limits of timestamps, and floating-point rounding in the limiter: unbounded integers and reals.
- Snapshot and bookmark names reused for another GUID, renames, rollbacks, and snapshots created on the receiver by hand.
- Witness.WitnessOverEveryRun: takes a landed stream and its last-received hold as one event against receiver prune, and the four conditions of `QuietEvent`, each shown to be needed in `WitnessLimits`; hold calls of a step that goes on have succeeded.
- Witness.IncrementalityIsNeverLost: assumes that the token, if seen, decodes and that both bookmark listings of the plan agree.
- CatchUp.CatchUpConverges: the sender takes and loses no snapshot during the loop, and queries and streams work; a failed cursor is allowed.
- Holds.HoldScope.RunOneFilesystem: the send either works or fails as a whole; the executor's copy loop, stall timeout and cancellation are not modelled.
- Holds.HoldScope.Commit: other processes leave this pair's tag and cursors alone, which `Names.CursorClaimedIff` justifies for the pairs it does not name.
- PruneRuns.OldestSurvivesPrunes: a listing shows the matching snapshots still there in the order they were taken, and every new snapshot is strictly younger than those before it.
- PushCycle.ParentsComeFirst: targets do not vanish during a cycle, and dry runs, which open no stream, are not part of this module.
- RecvAncestors.CreatableAncestors: targets do not begin with a slash, which header validation guarantees.
- RecvHold.Dataset.AdvanceLastHold: nobody else moves this job's tag on the dataset meanwhile; two hand-overs at once are treated by `TwoHandOversLoseEveryTagIff`.
- RecvHold.TwoHandOversLoseEveryTagIff: listing the snapshots and querying their holds is one turn, and so are all releases of a hand-over.
- RecvLock.ReceivesAreSerial: a `zfs recv` child ends with its process; collisions of lock file digests are ignored.
- Scheduler.PushJob.RunTurns: the wall clock does not run backwards, pausing takes effect between turns only, and recorded outcomes are loaded by the constructor.
- Limiter.SharedRateBound: senders call with at most c bytes and wait out their sleep, as the copy loop does.
- PeerLink.Reconnector.RunForPeer: `waits` bounds the sleeps before cancellation and the surroundings are given per sleep, so every finite run is covered; route names are distinct, as validation requires.
