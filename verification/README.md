# Verified models of magus

magus runs build targets of many projects in one workspace, from many processes at once. This
project models the parts of it that are hard to get right by reading: its lock and cache
protocols, the line arithmetic of its change reports, and a handful of algorithms. `dafny verify
dfyconfig.toml` checks everything.

A protocol is a step system: a state, an event or action datatype, a predicate that says when a
step can be taken and a function that says what it does. A step is one critical section, one
channel or flock operation, or one record written, read or removed. A theorem about a protocol
holds in every state of every run, for any number of processes, callers and paths. An algorithm is
a method with the source's loops, proved against a definition that does not mention them.

| file | what it models |
|---|---|
| `LockSlots.dfy` | the reference-counted in-process slots under a project lock |
| `LockProtocol.dfy` | slot, flock and owner record as a step system with crashes |
| `LockOrder.dfy`, `LockProgress.dfy` | acquiring many locks in sorted order, giving them back, and that this ends |
| `HoldRelease.dfy` | the idempotent release shared with the root watchdog |
| `Supersede.dfy` | which holder a gate asks to stop and which request a holder answers |
| `PipeHolds.dfy` | published lock sets, sweeps and the wait on an upstream pipe stage |
| `WarmGraph.dfy` | the watched graph cache, its single-flight rebuild and background reload |
| `ProbeFlights.dfy` | probes that share a fork per key |
| `LazyWorkspace.dfy` | opening a workspace while a shard source is installed |
| `Patch.dfy`, `LineMap.dfy`, `SpanMap.dfy` | line numbers and spans through unified diffs |
| `EditDistance.dfy` | the two-row Levenshtein loop |
| `TopoNodes.dfy`, `FineCycles.dfy`, `SettleOrder.dfy` | topological order of targets, breaking the cycles in its way, and the settling pass |
| `CrossOutputs.dfy` | outputs one project declares in another's tree |
| `ExportedCallees.dfy` | the exported functions a magusfile target reaches |
| `SlotPolicy.dfy` | memory claims turned into concurrency slots |
| `Options.dfy`, `Names.dfy`, `Sums.dfy` | optional values, names in order, sums |

## Where the code does not meet the obvious property

Each of these is kept as the code has it, shown by a concrete input, and bounded by an exact
condition.

- A holder that is asked to yield need not answer. Start times are compared exactly on one side
  and as recorded, to the second, on the other (`Supersede.AskedHolderMayNotAnswer`). It answers if
  and only if it is background work or the two started in different seconds
  (`Supersede.AskedHolderAnswersIffSecondsDiffer`).
- A new holder may sweep a request it would honour
  (`Supersede.BackgroundMaySweepAHonouredRequest`): if and only if it is background work and the
  request is of no later second (`Supersede.SweepsAHonouredRequestIff`).
- Slots that fit do not always mean memory that fits: with fewer megabytes than slots a slot stands
  for no memory (`SlotPolicy.OneClaimTooMany`). Admission is safe if and only if there are at least
  as many megabytes as slots (`SlotPolicy.AdmissionIsSafeIff`).
- `internal/cache/order.go` says dropped edges are still settled after the batch. The reader is
  re-run, but the pass may leave it stale again (`SettleOrder.DroppedEdgeMayStayStale`): if and only
  if the writer's turn comes later and, by what the batch left, will move its bytes
  (`SettleOrder.StaleExactlyWhenWriterWillMoveLater`).
- A probe that joins a flight may get an answer no fork gave
  (`ProbeFlights.JoinerMayGetACachedAnswer`): the answer is a fork's if and only if the flight's
  second lookup missed (`ProbeFlights.ForkAnswersIffLookupMissed`).
- When two shard sources are installed one after the other, the handle may end up with the first
  (`LazyWorkspace.EarlierInstallMayWin`): if and only if the opener had read another source before
  the last install and handed it over after that install was through
  (`LazyWorkspace.LastInstallLosesIff`). Installs that overlap may cross
  (`LazyWorkspace.OverlappingCallsMayCross`), and there the last store decides
  (`LazyWorkspace.LastStoreWins`).
- `valid` may be set with no watcher (`WarmGraphProtocol.ValidMayOutliveTheWatcher`): if and only if
  a rebuild in flight at the stop, which would then have been believed, was the last to publish
  (`WarmGraphProtocol.ValidWithoutWatcherIff`). No caller is answered from such a cache.
- A wait may end although a run inside the upstream process, which publishes nothing, holds a lock
  the waiting run needs (`PipeHolds.NestedRunMayStandInTheWay`). Nothing of the process stands in
  the way if and only if all that would had published when the waiting run looked last
  (`PipeHolds.NothingInTheWayIff`, `PipeHolds.ListingIsComplete`), as where the process has one
  invocation (`PipeHolds.SoleInvocationIsClear`).

## Model

| member | source | states |
|---|---|---|
| `LockSlots.JoinEffect` | lock.go:553-565 | a join adds one count to its own path and makes the entry if there is none; no other path's count or fullness moves |
| `LockSlots.LeaveEffect` | lock.go:567-574 | a leave takes one count of its own path and drops the entry with the last one; nothing else moves |
| `LockSlots.LocalLocks.JoinPath` | lock.go:553-565 | the critical section is exactly that join, and returns the path's one slot |
| `LockSlots.LocalLocks.LeavePath` | lock.go:567-574 | the critical section is exactly that leave |
| `LockProtocol.StepKeepsInv` | lock.go:429-523 | every step of acquire, release, contend, a probe or a crash keeps the counts, the exclusive slots and the flock and owner facts together |
| `LockProtocol.RunKeepsInv` | lock.go:429-594 | so every state of every run has them |
| `LockProtocol.MutualExclusion` | lock.go:429-463 | at most one session over all processes has the flock of a path |
| `LockProtocol.EntryExactlyWhileShared` | lock.go:539-594 | a process has a slot entry for a path exactly while it has holders, waiters or probers of it; all share that entry, and its count is their number |
| `LockProtocol.FullSlotNeverDropped` | lock.go:567-574 | an entry that is dropped is an empty slot nobody else is counted on |
| `LockProtocol.BusyFlockIsForeign` | lock.go:429-523 | whoever has the slot and finds the flock taken, at the first attempt of acquire or at any poll of contend, was beaten by another process |
| `LockProtocol.GiveNeverBlocks` | lock.go:585-594 | every give finds its slot full, and it is the path's current slot |
| `LockProtocol.LiveOwnerHoldsLock` | lock.go:711-724 | an owner record naming an invocation of a live process means that invocation has the flock |
| `LockProtocol.HeldLockIsNamedIff` | lock.go:711-724 | while a lock is held its owner record names the holder if and only if the holder's write of it succeeded |
| `LockProtocol.ReleaseSparesOthersRecords` | lock.go:967-969 | a release removes its own record or one left by a crashed process, never a live other's |
| `LockOrder.Canonical` | lock.go:601-604 | the locks are taken in strictly increasing order, each path of the request once and no other |
| `LockOrder.SysRunKeepsInv` | lock.go:601-621 | in every run each invocation holds exactly the part of its plan its phase says |
| `LockOrder.ReturnedHoldsNothing` | lock.go:606-621 | after a return, failed or released, the invocation holds, waits for and counts on nothing |
| `LockOrder.FailedIffNeverWorked` | lock.go:614-621 | a returned invocation reports failure if and only if it never was at work; if it reports success, some earlier state held its whole plan |
| `LockOrder.FailureHasACause` | lock.go:429-523 | it fails only after it gave up on a slot, met an error at a flock or was refused by contend; a busy flock alone is contended for |
| `LockOrder.WorkHoldsWholePlan` | lock.go:601-621 | an invocation whose acquireAll succeeded holds exactly the paths of its plan and has no other session |
| `LockOrder.RankRises` | lock.go:468-523 | along the waits-for relation the awaited resource, path first and slot before flock, rises strictly |
| `LockOrder.WaitsForIsAcyclic` | lock.go:468-523 | no chain of waits returns to the invocation it began at |
| `LockOrder.WaitResolves` | lock.go:468-523 | from a waiting invocation a chain of waits leads to an agent, already there, whose step forward can be taken |
| `LockOrder.NoDeadlock` | lock.go:596-621 | while some invocation has not returned, an invocation or prober that is already there can take a step that is neither a failure nor a crash |
| `LockProgress.StepLowersCost` | lock.go:429-621 | every such step lowers a count of what is left to do |
| `LockProgress.EveryForwardRunReturnsAll` | lock.go:596-621 | from any reachable state, in whatever order agents are scheduled, such steps run out within a bound, and where none is left every invocation has returned |
| `HoldRelease.ReleasedOnceAndJoined` | lock.go:41-54 | once any release has returned, unlock has run exactly once, the watchdog is over, and no later state runs unlock again |
| `HoldRelease.NeverUnlockedTwice` | lock.go:52-54 | at no moment has unlock run twice or do two goroutines run it together |
| `HoldRelease.ReleaseNeverWedges` | lock.go:172-224 | a release that has not returned never waits for itself: the watchdog or a caller can step |
| `HoldRelease.ReleaseEnds` | lock.go:172-224 | once the hold is done, only so many steps are left without a new call of release |
| `HoldRelease.NothingLeftMeansReturned` | lock.go:45-54 | and where none is left every release has returned |
| `HoldRelease.WatchdogReleasesOnlyWhenGone` | lock.go:204-217 | the watchdog runs the release only after it found the root gone |
| `HoldRelease.GoneMeansReleased` | lock.go:208-217 | and then does not end before somebody has run unlock, or is running it |
| `HoldRelease.NoLookAfterDone` | lock.go:196-203 | once the hold is done it begins no further look at the root, whatever ticks are pending |
| `Supersede.SelectsExactly` | lock.go:806-830 | which holders a run asks to stop: none of another tree, unnamed or with a zero start; background work unless it is background itself; and gates by whole seconds and the fraction of its own start |
| `Supersede.HonoursExactly` | lock.go:836-853 | whom a holder answers: nobody of another tree or dead; background work any live requester, a gate the live gates of a strictly later second, a plain run nobody |
| `Supersede.AskedHolderMayNotAnswer` | lock.go:806-853 | two gates half a second apart: the holder is asked and does not answer |
| `Supersede.AskedHolderAnswersIffSecondsDiffer` | internal/file/record/record.go:257-275 | a holder that is asked by a live run answers if and only if it is background work or they started in different seconds |
| `Supersede.AnsweredRequestWasQualified` | lock.go:836-853 | whom a holder answers would have asked it, unless both are background work; a gate answers only later gates |
| `Supersede.MutualAskIff` | lock.go:806-830 | two gates ask each other exactly when they started within one second and neither on its first nanosecond |
| `Supersede.AnsweringIsStrictOrder` | lock.go:836-853 | answering is irreflexive, asymmetric and transitive on the gates of a tree |
| `Supersede.LatestGateIsNeverStopped` | lock.go:836-853 | the gate that started last is stopped by no gate, and a plain run by nobody |
| `Supersede.UnstoppedIffOfTheLatestSecond` | lock.go:836-853 | a gate is stopped by none of the live gates of its tree if and only if none started in a later second |
| `Supersede.SweepsExactly` | lock.go:879-885 | a new holder sweeps a request that names nobody or is of no later second than its own start |
| `Supersede.SweepsAHonouredRequestIff` | lock.go:879-885 | a new holder sweeps a request it would honour if and only if it is background work and the request is of no later second; so a gate never does |
| `Supersede.BackgroundMaySweepAHonouredRequest` | lock.go:879-885 | a request that is asked for, would be honoured and is swept |
| `PipeHolds.StepKeepsValid` | pipe.go:114-281 | every step of publishing, retracting, listing, reading, probing, sweeping, locking or crashing, in any invocation of any process, keeps the invariant |
| `PipeHolds.RecordMeansHeld` | pipe.go:111-139 | a live publisher's readable record lists exactly the locks it holds, and its own flock is held by it |
| `PipeHolds.SweepSparesLivePublishers` | pipe.go:142-163 | what a sweep removes belongs to a publisher that has retracted or died |
| `PipeHolds.ClaimLastsUntilRetracted` | pipe.go:131-139 | a published record stays readable under a held flock through every step but its own retraction or crash |
| `PipeHolds.WithdrawsInOrder` | pipe.go:131-139 | a run that publishes removes the record, then frees its flock, then unlinks the lock file, before it gives its locks back |
| `PipeHolds.EnteredBy` | pipe.go:114-139 | an invocation is in a phase past taking its locks only by the step that leads there: only what has published counts as published |
| `PipeHolds.ProbesLetGo` | lock.go:1061-1078 | a probe holds a publisher's flock only while it probes |
| `PipeHolds.UnlinkedIsFree` | pipe.go:155-157 | after its lock file is unlinked a record's flock is free but for later probes |
| `PipeHolds.SweptStaysSwept` | pipe.go:155-157 | a swept record is gone for good |
| `PipeHolds.GoodRoundEndsTheWait` | pipe.go:214-281 | a round throughout which every upstream process has closed its pipe, or keeps a publisher and has no record with anything of the plan, ends the wait |
| `PipeHolds.WaitIsNeverStuck` | pipe.go:214-281 | a waiting run can always take its next step |
| `PipeHolds.SilentIffClosed` | pipe.go:259-261 | a process counts as silent if and only if it has closed its pipe |
| `PipeHolds.WaitEndsClear` | pipe.go:214-281 | from the end of a wait on, every upstream process still writing has published by some invocation a set disjoint from the run's, and no invocation listed holds or may take any of it, unless it has withdrawn its record and is releasing |
| `PipeHolds.BlockerWasNotListed` | lock.go:115-139 | whoever of a process still writing keeps a run from a lock after its wait had no record when it looked last, or has withdrawn it |
| `PipeHolds.ListingIsComplete` | pipe.go:145-147 | a look lists every invocation of the process that has published |
| `PipeHolds.NothingInTheWayIff` | pipe.go:256-270 | nothing of a process still writing stands in the way if and only if all that would had been listed |
| `PipeHolds.SoleInvocationIsClear` | pipe.go:256-270 | the one invocation of a process still writing has published a disjoint set and holds nothing of the run's |
| `PipeHolds.NestedRunMayStandInTheWay` | run.go:2000-2003 | a run inside an upstream process, which publishes nothing, holds a lock the waiting run goes on to ask for |
| `WarmGraphCache.WarmGraph.GetCached` | graph.go:264-271 | answers only while watching and valid |
| `WarmGraphCache.BelievedIffUndisturbed` | graph.go:212-251 | whatever critical sections come between a snapshot and its publish, the rebuild is believed if and only if the watcher was active at the snapshot and none of them was an invalidation, and answers callers if and only if the watcher still is |
| `WarmGraphCache.WarmGraph.Invalidate` | graph.go:276-281 | empties the cache and moves the generation on |
| `WarmGraphCache.WarmGraph.StopWatching` | graph.go:380-384 | empties the cache and leaves the generation alone |
| `WarmGraphProtocol.RunFresh` | graph.go:212-281 | in every run a cached graph was begun after the last invalidation, and one thread is in the build section |
| `WarmGraphProtocol.CachedAnswersAreFresh` | graph.go:212-273 | a Get answered from the cache gets a graph whose rebuild began after every invalidation delivered before the answer |
| `WarmGraphProtocol.RefreshIsRebuilt` | graph.go:209-226 | a refresh is never answered from the cache: its graph's rebuild began after it was asked for |
| `WarmGraphProtocol.PlainGetIsCachedIffItHit` | graph.go:212-226 | a plain Get is answered from the cache if and only if one of its two looks found it good, and with what was there; otherwise with a rebuild of its own time |
| `WarmGraphProtocol.GetFailsIffItsRebuildDid` | graph.go:233-236 | a Get returns an error if and only if its rebuild failed |
| `WarmGraphProtocol.GetNeverWedges` | graph.go:212-251 | a Get that has not returned can go on, or waits for one that can |
| `WarmGraphProtocol.RebuildsNeverOverlap` | graph.go:212-251 | at most one rebuild runs at a time |
| `WarmGraphProtocol.MissesCoalesce` | graph.go:212-251 | while the watcher is active and no invalidation or failure comes, any number of concurrent non-refresh Gets begin at most one rebuild between them, whatever was under way before |
| `WarmGraphProtocol.BackgroundReloadLosesNoWakeup` | graph.go:285-376 | with follower and loop alive, the cache is valid, or a token is pending, or the loop is settling or rebuilding, or the follower is about to request, or the last background rebuild failed |
| `WarmGraphProtocol.TokenIffUnanswered` | graph.go:285-310 | a reload token is pending if and only if the loop has received none since the last request |
| `WarmGraphProtocol.RebuildsOnlyOnRequest` | graph.go:296-320 | each background rebuild follows a request received since the last |
| `WarmGraphProtocol.FailureIsOfTheLastRebuild` | graph.go:316-319 | the loop counts as failed if and only if the last background rebuild to end failed |
| `WarmGraphProtocol.ValidMayOutliveTheWatcher` | graph.go:380-384 | a reachable state is valid with no watcher, and answers nobody from the cache |
| `WarmGraphProtocol.ValidWithoutWatcherIff` | graph.go:212-251 | the cache is valid with no watcher if and only if a rebuild in flight at the stop, which had seen the watcher and the current generation, has published and nothing has since |
| `ProbeFlights.StoredAnswers` | probe_cache.go:500-540 | what is stored answers the next lookup, unless something stored earlier outranks it |
| `ProbeFlights.SuccessThenAbsenceThenFailure` | probe_cache.go:500-519 | exactly which answer a lookup gives: a success whatever else there is, then a named cause of absence, a failure only alone |
| `ProbeFlights.HitIffFirstLookFound` | probe_cache.go:429-431 | a caller returns at its first lookup if and only if that found an answer, and with that answer |
| `ProbeFlights.CachedWasStored` | probe_cache.go:437-442 | nothing enters the cache but what another process stored or the store of an uncancelled fork wrote |
| `ProbeFlights.StoredIsCached` | probe_cache.go:522-540 | and what is put is there |
| `ProbeFlights.CachedStays` | probe_cache.go:404-416 | a success and a cause of absence stay for good, a failure until it expires |
| `ProbeFlights.FailureIsUnexpired` | probe_cache.go:510-513 | a failure that is there has not expired since it was put |
| `ProbeFlights.RunKeepsInv` | probe_cache.go:423-488 | in every run an open flight has one live owner whose phase matches how far the answer has come |
| `ProbeFlights.OneForkInFlight` | probe_cache.go:468-488 | at most one caller per key is between opening a flight and forgetting it, so at most one fork runs |
| `ProbeFlights.JoinsAnOpenFlight` | probe_cache.go:468-474 | a caller joins only a flight whose owner has not yet forgotten it |
| `ProbeFlights.JoinersShareTheAnswer` | probe_cache.go:468-488 | a joiner and the owner return one answer: that of the fork if it was running at the join, the answer already there if there was one, and in every case a fork's if and only if the flight's second lookup missed |
| `ProbeFlights.ForkAnswersIffLookupMissed` | probe_cache.go:432-443 | a flight makes its second lookup, its answer is a fork's if and only if that missed, and otherwise what it found |
| `ProbeFlights.ForkRanAtJoinIff` | probe_cache.go:468-474 | a fork was running when a caller joined if and only if the caller saw it running |
| `ProbeFlights.JoinerKeepsToItsFlight` | probe_cache.go:468-474 | from its join on a joiner keeps to the flight it joined and to what it saw then |
| `ProbeFlights.JoinersAreNotStranded` | probe_cache.go:468-488 | a waiting joiner's flight has landed or its owner can step |
| `ProbeFlights.CallersNeverWedge` | probe_cache.go:423-488 | a caller that has not returned and waits on no other's flight can always go on |
| `ProbeFlights.AtMostOneSuccessfulFork` | probe_cache.go:423-444 | when stores succeed, a key is forked successfully at most once in the whole run |
| `ProbeFlights.JoinerMayGetACachedAnswer` | probe_cache.go:432-436 | a joiner whose flight found a stored answer and never forked |
| `LazyWorkspace.HandleGetsAnInstalledSource` | lazy_workspace.go:55-90 | in every interleaving of one successful open with any installs, the handle ends up with an installed source |
| `LazyWorkspace.HandleGetsTheInstalledSource` | lazy_workspace.go:55-90 | with one install it is that one |
| `LazyWorkspace.NothingStoredWithoutHandle` | lazy_workspace.go:57-70 | until an open succeeds, and for ever if it fails, no source is stored |
| `LazyWorkspace.EarlierInstallMayWin` | lazy_workspace.go:55-90 | two installs in sequence after which the handle has the first |
| `LazyWorkspace.LastInstallLosesIff` | lazy_workspace.go:55-90 | where the last install overlaps no other, the handle misses its source if and only if the opener had read another before it and handed that over after it |
| `LazyWorkspace.LastStoreWins` | lazy_workspace.go:55-90 | however installs overlap, the handle has the source of the last store into it |
| `LazyWorkspace.OverlappingCallsMayCross` | lazy_workspace.go:85-90 | two overlapping installs that cross with no open in the way |
| `Patch.ForwardBackwardInverse` | change_risk.go:835-864 | the forward and backward line maps of an alignment are inverse partial maps |
| `Patch.ForwardBackwardMonotone` | change_risk.go:835-864 | both are strictly increasing where defined |
| `Patch.JumpIsWalk` | change_risk.go:835-871 | skipping whole hunks with a running shift agrees with walking the alignment row by row |
| `LineMap.ContextPair` | change_risk.go:875-888 | the search finds the context row of the line, or says there is none |
| `LineMap.ForwardLine` | change_risk.go:835-846 | on well-formed hunks the loop computes the forward map |
| `LineMap.BackLine` | change_risk.go:850-862 | on well-formed hunks the loop computes the backward map |
| `LineMap.BackwardIsMirroredForward` | change_risk.go:835-864 | going back is going forward through the mirrored patch |
| `LineMap.DefinedExactlyOnSurvivors` | change_risk.go:835-888 | forward is undefined exactly on removed lines and backward exactly on added ones |
| `LineMap.LinesBetweenHunksShift` | change_risk.go:835-871 | by the header numbers alone, an old line outside the hunks moves by what the hunks before it add and remove; an empty range lies just after the line it names |
| `LineMap.NewLinesBetweenHunksShift` | change_risk.go:850-871 | and the same backward |
| `LineMap.ContextRowsAlign` | change_risk.go:873-888 | by the row numbers alone, a context row pairs the two lines it names, both ways |
| `LineMap.ForwardKeepsText` | change_risk.go:835-846 | the line a line maps to carries the same text in the patched file |
| `LineMap.HeadLine` | change_risk.go:731-759 | maps through the committed hunks at the name the file had at HEAD, then through the working hunks at its path; the name at HEAD is the old one of a renamed file, else the path |
| `LineMap.HeadLineIsABijection` | change_risk.go:753-759 | the composition is a strictly increasing bijection between surviving lines |
| `LineMap.HeadLineKeepsText` | change_risk.go:753-759 | and carries the text through both patches |
| `SpanMap.RemovedInSpan` | change_risk.go:909-926 | returns exactly the removed lines whose run is followed, in the hunk, by a line of the span, other than an unchanged first one |
| `SpanMap.BelongsExactly` | change_risk.go:890-926 | an old line belongs to a span if and only if its image is in it, or it was removed and the hunk's next line is in it, the first only if that has no old line |
| `SpanMap.OldSpan` | change_risk.go:893-907 | returns the least and greatest old line that maps into the span or is charged to it, or nothing when there is none |
| `SpanMap.SpanCoversImages` | change_risk.go:893-907 | every old line whose image is in the new span lies in the old span |
| `SpanMap.SpansKeepOrder` | change_risk.go:893-926 | ordered disjoint spans go to ordered disjoint spans, and no old line is charged to both |
| `SpanMap.BaseSpan` | change_risk.go:731-749 | goes back through the working hunks at the path, then through the committed hunks at the name at HEAD; nothing for an added function or one without an end |
| `SpanMap.BaseSpanCovers` | change_risk.go:740-749 | covers every base line that maps through both patches into the function |
| `SpanMap.BaseSpansKeepOrder` | change_risk.go:740-749 | keeps functions in order and apart through both patches |
| `EditDistance.Distance` | conventions.go:176-194 | the two-row loop computes the recursive minimum-edit distance, for all byte strings |
| `EditDistance.ZeroIffEqual` | conventions.go:176-194 | the distance is zero only between equal strings |
| `EditDistance.Symmetric` | conventions.go:176-194 | it does not depend on the order of its arguments |
| `EditDistance.Triangle` | conventions.go:176-194 | it meets the triangle inequality |
| `EditDistance.LeastNumberOfEdits` | conventions.go:176-194 | it is the length of a shortest chain of single-byte insertions, deletions and replacements |
| `TopoNodes.InDegrees` | internal/cache/order.go:193-196 | counts, for each node, the edges into it |
| `TopoNodes.ReleaseReaders` | internal/cache/order.go:207-214 | a pass over the edges releases the readers of the node put out |
| `TopoNodes.Advance` | internal/cache/order.go:203-215 | after each turn the queue holds exactly the nodes waiting for nothing and the counts are right again |
| `TopoNodes.TopoOrder` | internal/cache/order.go:189-217 | each node at most once, every reader after its writers, and every node when the edges are acyclic |
| `FineCycles.Visit` | internal/cache/order.go:360-382 | the depth-first visit ends with a cycle, or with its node finished after everything it points to |
| `FineCycles.FindCycle` | internal/cache/order.go:345-392 | what it returns is a cycle of distinct edges, and it returns none exactly when the edges are acyclic |
| `FineCycles.CycleIsNotAcyclic` | internal/cache/order.go:345-392 | edges with a cycle cannot be ranked |
| `FineCycles.CycleBackEdge` | internal/cache/order.go:324-343 | picks, of the edges of a cycle that point against the key order, the one with the greatest keys; there always is one |
| `FineCycles.DropEdges` | internal/cache/order.go:315-320 | takes out every chosen edge and no other, and loses none |
| `FineCycles.Yielding` | internal/cache/order.go:304-314 | all weak edges of a cycle yield and no other; where there is none, one strong edge, the greatest against the key order |
| `FineCycles.Resolve` | internal/cache/order.go:298-322 | ends; what it keeps is acyclic, kept and dropped together are the edges there were, and each dropped edge lay on a cycle, a strong one on a cycle of strong edges |
| `FineCycles.AcyclicLosesNothing` | internal/cache/order.go:298-303 | an edge is dropped only from edges that were not acyclic |
| `FineCycles.MarkingKeepsAcyclic` | internal/cache/order.go:184-186 | edges marked ordered afterwards stay acyclic, as the settling pass needs them |
| `SettleOrder.PrepareSettle` | order.go:143-160 | hashes exactly the writers of kept and dropped edges, and nothing when there is no edge |
| `SettleOrder.TakeTurn` | order.go:223-286 | a node is re-run exactly when it is eligible and some edge makes it stale, and the hash it is compared by stays that of the disk |
| `SettleOrder.Settle` | order.go:176-288 | the pass takes the nodes writers first, every node when the kept edges are acyclic, and stops at the first failure |
| `SettleOrder.OnePassSuffices` | order.go:162-288 | after a pass without failure every eligible reader has run after the last byte change of each writer on a kept edge |
| `SettleOrder.MovesAreForeseen` | order.go:223-286 | which re-runs move bytes follows from the batch alone: eligible nodes with an unordered edge from a moved writer or an edge from an earlier such node, whose re-run writes other bytes |
| `SettleOrder.FailsExactlyWhen` | order.go:274-281 | the pass fails if and only if some node that will re-run has a re-run that fails |
| `SettleOrder.FirstFailureIsReported` | order.go:274-281 | the failure reported is that of the first turn that will fail, and nothing re-runs after it |
| `SettleOrder.StaleExactlyWhenWriterWillMoveLater` | order.go:242-251 | over kept and dropped edges alike, an eligible reader is left stale if and only if the writer's turn comes later and, by the batch, will move its bytes |
| `SettleOrder.DroppedEdgeMayStayStale` | order.go:212-221 | two targets that read each other: the pass re-runs both and leaves the dropped edge stale |
| `SettleOrder.RerunsAtMostOnce` | order.go:223-286 | each node re-runs at most once |
| `SettleOrder.SettledTreeIsANoOp` | order.go:162-175 | if no writer moved, nothing re-runs and nothing changes |
| `SettleOrder.EveryRerunHasAReason` | order.go:242-251 | every re-run is of an eligible node and reports an unordered edge from a moved writer or an edge from an earlier re-run that moved |
| `CrossOutputs.ExistingWriter` | describe.go:736-754 | finds a prior declarer if and only if another writer, or the owner itself, declares the pattern, and names the first such writer in name order, else the owner |
| `CrossOutputs.ApplyOne` | describe.go:645-703 | refuses for an unknown owner, a dependency the other way or a taken pattern, in that order, and otherwise adds the dependency and files the pattern |
| `CrossOutputs.ApplyCrossOutputs` | describe.go:645-705 | applies the declarations up to the first refusal |
| `CrossOutputs.ClosedForm` | describe.go:672-703 | what the phase leaves: the old dependencies and the writers, the old patterns and the declared ones in order, all else as it was |
| `CrossOutputs.AcceptedIffConsistent` | describe.go:645-705 | accepts exactly when no declaration is at odds with the workspace and no two with each other, a condition without an order |
| `CrossOutputs.RefusedExactly` | describe.go:645-703 | which error is reported: that of the first declaration at odds with the workspace or an earlier one, and of the checks it fails the first |
| `CrossOutputs.OrderDoesNotMatter` | describe.go:645-705 | verdict and dependency sets are the same for any order or repetition of the declarations |
| `CrossOutputs.FiledPatternsAreReordered` | describe.go:677-703 | and so are the filed patterns, but for their order |
| `CrossOutputs.NoMutualDependence` | describe.go:659-671 | on acceptance the owner depends on the writer and the writer not on the owner |
| `CrossOutputs.OneDeclarer` | describe.go:683-703 | on acceptance a declared pattern has one declaring project in the owner's tree, its writer |
| `CrossOutputs.ErrorDependsOnOrder` | describe.go:645-671 | which error is reported does depend on the order |
| `ExportedCallees.Walk` | plan.go:469-492 | the walk ends on every call graph and, of the bodies it newly visits, has entered what they enter and collected what they call |
| `ExportedCallees.ExportedCalleesOf` | plan.go:466-501 | returns, sorted and once each, exactly the normalized exported functions called from bodies reached from an anchor through unexported functions |
| `ExportedCallees.AnswerIsDetermined` | plan.go:494-501 | there is one such list, so the order the functions are taken in cannot show |
| `Names.SortCompactRises` | plan.go:499-500 | sorting and compacting names keeps the members and puts each once, in order |
| `Names.LessByFirstDifference` | plan.go:499 | which name is less is decided where the two first differ |
| `SlotPolicy.LeastThatCovers` | limiter.go:263-278 | unbrokered, with memory declared and at least as many megabytes as slots, the least count not below the declared one whose share of the budget covers the memory; unchanged otherwise |
| `SlotPolicy.PerSlotIsGreatest` | limiter.go:267-270 | a slot stands for as many whole megabytes as all slots together have room for, none exactly when there are fewer megabytes than slots |
| `SlotPolicy.SlotsFitMemoryFits` | limiter.go:246-278 | any targets whose slots fit in the slot budget have memory that fits in the memory budget, when there are at least as many megabytes as slots |
| `SlotPolicy.OneClaimTooMany` | limiter.go:267-270 | with more slots than megabytes, one target whose slots fit and whose memory does not |
| `SlotPolicy.AdmissionIsSafeIff` | limiter.go:246-278 | admission by slots keeps memory within its budget for all targets if and only if there are at least as many megabytes as slots |

## Left out

- Nested runs: an invocation that waits for a magus run it started itself is outside `LockOrder`; `contend` marks the deadlock of two such siblings as open.
- Flock, records and processes: a flock is an exclusive resource freed by a crash, a record is an atomic register, removing one succeeds, and a process id is not used again.
- Path spelling: two spellings of one path are not modelled; paths and project names are compared exactly, as after `lockPath` and `canonicalProjects`.
- Hashes: bytes under a write glob are compared by value, so equal hashes of different bytes are excluded.
- Pipes: the spool that drains stdin, the wait notice and the exit grace are not modelled, and a listed record that is there can be read.
- Clocks and polling: how long anything waits is a nondeterministic choice, and the time to live of a failed probe is a step that may happen at any moment.
- `warmGraph.watch` is taken to run once per holder, as `WatchKnowledgeGraph` documents.
- The diff parser: hunks are taken well-formed, that is with row numbers and counts as the unified format has them; `lineFindings`, `headPath` renames across more than the two patches and the scoring around them are not modelled.
- `nearest` in conventions.go: a search that only compares `editDistance` with two.
- SettleOrder.StaleExactlyWhenWriterWillMoveLater: a writer whose bytes changed and changed back during the batch counts as not moved, as for the code, so `BatchRan` excludes it; a re-run writes only its own outputs, and what a failed re-run leaves on disk is not described.
- `DeriveTargetOrder` beyond cycle resolution: which globs overlap and which edges a step schedule can honour (`projectOntoSteps`) are inputs. The out-edges of a node are found by a scan in insertion order, as the adjacency lists hold them.
- The per-reader edge map of `settleDerivedOrder` is a scan over the kept and then the dropped edges, which meets the edges of a reader in the same order.
- CrossOutputs: dependencies are sets, so their sorted list is not modelled, and an error does not carry its message.
- ExportedCallees.ExportedCalleesOf: a body is the sequence of identifiers it calls and name normalization is any function; `computedBy` and its memo tables are not modelled.
- `sizeMemoryClaim`, `trustedMeasurement`, `sizeSlotClaim` and brokered claims: forecasting inputs with no law of their own beyond a minimum.
- An open that returns a handle together with an error.
- ProbeFlights, LazyWorkspace, PipeHolds, HoldRelease and the lock order are step systems on values: an update in place under a mutex is one step, and aliasing does not arise.
- Probes whose inputs cannot be listed fork without sharing and are outside `ProbeFlights`.
- Wiring, options, telemetry, message text and the stores behind the knowledge graph.
