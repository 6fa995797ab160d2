# Roder, verified

Roder is a Kubernetes console: a Rust server that watches clusters and runs node
operations, and a browser client that shows live tables. This project models the parts of
it where state, concurrency or text encoding make correctness hard to see, and proves in
Dafny 4.11 what those parts are for. `dafny verify dfyconfig.toml` checks all of it.

Each stateful core is a set of steps over an explicit state, so a theorem about a run
ranges over every interleaving of every number of tasks, with crashes, lost replies, timers
and lag between any two steps. Objects the program updates in place are classes whose
methods are proved against those steps.

- **Node lease** (`NodeLease`, `LeaseProgress`, `LeaseLoss`). Replicas contend for a node with get, list-pods and
  compare-and-swap calls and fence each other by pod name and uid. Mutual exclusion holds
  in every run; the winner replaces exactly the version whose holder it inspected; losing
  touch cancels the operation exactly after three failed renewals in a row. Releases release,
  renewals renew, dead holders are replaced, and each outcome of an attempt has its one reason. The
  environment assumptions are the ones at the head of `NodeLease.dfy`: a linearizable API
  server that refuses a stale version, pods that are never reborn with the same uid and
  have no `/` in their name, listings that contain every live pod, and no other writer.
- **Informer** (`Server`, `Informer`, `InformerRun`). The server is a history of
  versions and keeps its own cursor in it for each stream, set by the version the task asks
  for; the watch task lists in pages, commits, watches, resumes, relists. Its caches
  are always the projection of one whole version, and its broadcasts add up to them.
  Projection is any function from an object to an optional row that keeps the uid.
- **Idle reaper** (`IdleReaper`). The three phases of the reaper interleave with
  subscribers that attach and leave: a live receiver's informer always stays in the table.
- **Subscribers** (`Rows`, `Fanout`, `FanoutProgress`, `Reproject`). Receiver, snapshot, terminal event and
  live delivery interleave freely with the task's write-then-send. A drained subscriber
  has the rows, because replaying a suffix of applied events is absorbed.
- **Client tables** (`RowTable`, `MergedTable`). Rows that linger for their exit
  animation and are removed by timers still refine a plain map, and kinds sharing one
  table do not disturb each other.
- **End to end** (`EndToEnd`). Watch task, subscribers and tables composed: what the browser shows is the
  projection of what the server has.
- **Backends** (`SingleFlight`, `BackendRegistry`). One build per subject, although lock
  objects are created and dropped by reference count; a soft cap that trims exactly the
  least recently active entries nobody uses.
- **Drain jobs** (`DrainJobs`). Cancel and commit exclude each other; ids, logs and
  replay never skip or repeat.
- **Pod metrics** (`PodMetrics`). Usage and history caches described from the scrapes
  alone.
- **Ordering** (`Ordering`, `NaturalSort`, `ShownRows`). Natural comparison is
  lexicographic on tokens; the shown rows are the only sorted selection.
- **PromQL** (`PromQl`). An independent lexer and regex parser read the printed selector
  back to the names it was built from.
- **Virtual window** (`VirtualWindow`), **kernel log** (`KernelLog`), **log view**
  (`LogStream`), **configuration projection** (`ConfigSnapshot`).

## What the proofs found

- A subscriber that finds a terminal event throws its receiver away. Rows written between
  its snapshot and that moment are lost to it (`Fanout.EndedSubscriberCanMissARow`). It can
  count on the final rows if and only if the terminal event was already written when it read
  the rows (`Fanout.EndedSubscriberHasTheRowsIff`); what it holds in a given run is said uid
  by uid in `Fanout.EndedSubscriberKeepsItsSnapshot`.
- The watch task reads the words of an error before its code. A 410 that the stream itself
  reports makes it list again; answered to a page of a LIST or to opening the watch it ends the
  informer for good, although the comments promise a relist, unless its text mentions 401 or
  "Unauthorized" and not 403 or "Forbidden" (`InformerRun.ExpiryIsFinalIff`,
  `InformerRun.ExpiredContinueTokenEndsTheTask`). A passing failure ends the informer for good
  if and only if its text mentions 403 or "Forbidden" (`InformerRun.PassingFailureIsFinalIff`).
  Numbers that happen to be quoted, in a version or a selector, are enough
  (`InformerRun.QuotedNumberDecides`): a request that can never succeed is then repeated for
  ever (`InformerRun.RefusedForEver`). The model follows the code.
- The reaper decides on the grace period before it takes the table again: a subscriber that
  comes and goes in between does not save its informer (`IdleReaper.LateUseIsLost`). The
  removed informer was unused for the whole grace period if and only if nobody came in that
  period after the decision; for a sweep shorter than that, if and only if its idle mark, which
  the reaper does not look at again, still stands (`IdleReaper.UnusedAtRemovalIff`).
- An eviction can come to run beside a build of the same subject if and only if it finds no
  lock in the table when it starts (`SingleFlight.EvictionCanOverlapABuildIff`).
- A progress stream that lags beyond its channel until its job has expired ends without the
  rest (`DrainJobs.ExpiryCanCutAStream`). An ended stream gave the whole log if and only if that
  never happened to it (`DrainJobs.EndedStreamIsWholeIff`); its viewer can tell by the last
  event (`DrainJobs.ViewerKnowsItIsWhole`).
- A number of 2^64 or more in a name counts as zero when names are compared
  (`NaturalSort.HugeNumbersComeFirst`); `NaturalSort.TrailingNumbersCompareByValueIff` is
  the exact condition.
- The selector of an empty list of names matches the empty name
  (`PromQl.SelectorIsExactIff`).
- A followed kernel record of more than 500 lines or 2 MiB loses its oldest lines
  (`KernelLog.FollowLosesNothingIff`).
- Identities and merged keys rely on names without `/` and kinds that do not begin one
  another; `NodeLease.SlashInNameDefeatsFencing` and
  `MergedTable.OverlappingKindsInterfere` show what happens otherwise. Kubernetes names
  and kind keys satisfy both.

## Model

| member | source | states |
|---|---|---|
| NodeLease.FencedByNameAndUid | crates/k8s/src/coordination.rs:341-346 | the fencing test on an identity answers exactly whether that pod, name and uid, is listed; a recreated pod does not count |
| NodeLease.SlashInNameDefeatsFencing | src/server/mod.rs:156 | two pods would share an identity if a pod name could hold a slash |
| NodeLease.NoTakeoverFromTenant | crates/k8s/src/coordination.rs:111-178 | while a live pod's task is tenant, no takeover in flight can match the stored version |
| NodeLease.TakeKeepsInv | crates/k8s/src/coordination.rs:111-178 | a winning create or takeover keeps the protocol invariant for all tasks and requests |
| NodeLease.RenewKeepsInv | crates/k8s/src/coordination.rs:218-242 | a renewal answered late, even after its task is gone, keeps the invariant |
| NodeLease.ClearKeepsInv | crates/k8s/src/coordination.rs:250-277 | a release answered late never clears a later holder |
| NodeLease.StepKeepsInv | crates/k8s/src/coordination.rs:111-286 | every step of every task, pod and of the server keeps the invariant |
| NodeLease.AtMostOneHolder | crates/k8s/src/coordination.rs:111-178 | in every run at most one task of one live pod holds the node, and the Lease names its pod |
| NodeLease.WinnerReplacesWhatItInspected | crates/k8s/src/coordination.rs:122-178 | a winning write replaces exactly the version whose holder was inspected, which named no live pod, at a moment when nobody held the node |
| NodeLease.RenewalNeverFindsAnotherHolder | crates/k8s/src/coordination.rs:180-242 | a live holder's renewal always finds its own identity, so only failed requests count towards cancellation |
| NodeLease.VersionsOnlyGrow | crates/k8s/src/coordination.rs:218-277 | the stored version only grows, and an equal version means the same Lease: a stale precondition never matches again |
| NodeLease.TakeoverSucceeds | crates/k8s/src/coordination.rs:140-178 | a takeover whose precondition matches can run to tenure |
| NodeLease.VacantLeaseCanBeTaken | crates/k8s/src/coordination.rs:111-178 | a task that reads a Lease without a live holder obtains it when nothing interferes |
| LeaseProgress.ReleaseFreesTheLease | crates/k8s/src/coordination.rs:250-277 | from every reachable state a holder whose renewal rests can release, and then the stored Lease names nobody and is one version on |
| LeaseProgress.ReleasedLeaseCanBeTaken | crates/k8s/src/coordination.rs:250-277 | what one holder lets go, any task of any live pod that is about to read can have |
| LeaseProgress.ReplacementTakesOver | crates/k8s/src/coordination.rs:341-346 | when a holder's pod dies, a new pod, of the same name perhaps, can take the lease from it |
| LeaseProgress.RenewalRenews | crates/k8s/src/coordination.rs:218-242 | an undisturbed renewal succeeds in every run: one version on, the same holder, no failure left |
| LeaseProgress.RenewalRunsIff | crates/k8s/src/coordination.rs:180-217 | a renewal loop runs beside exactly the tasks that have won the lease and not let go of it |
| LeaseProgress.ReleaseReturns | crates/k8s/src/coordination.rs:250-277 | a release returns whether or not its reading succeeds, and writes only over its own name |
| LeaseProgress.TransitionsCountHolders | crates/k8s/src/coordination.rs:140-168 | the Lease counts its holders: one more exactly when somebody new is put in |
| LeaseProgress.BusyMeansHeldOrContended | crates/k8s/src/coordination.rs:111-178 | an attempt ends as `Busy` exactly for a listed or unreadable holder, or for a fourth write that came too late, and as an error exactly for a failed request |
| LeaseProgress.ConflictLooksAgain | crates/k8s/src/coordination.rs:171-178 | after a conflict a task reads again if and only if it has sent fewer than four writes |
| LeaseProgress.RefusedAttemptFails | crates/k8s/src/coordination.rs:171-175 | a refused write ends the attempt with an error and leaves the Lease |
| LeaseLoss.CancelledAfterThreeFailures | crates/k8s/src/coordination.rs:186-207 | in every run the operation is cancelled if and only if three renewals in a row failed at some time |
| LeaseLoss.OneMoreVerdict | crates/k8s/src/coordination.rs:194-203 | one more renewal completes three failures in a row exactly when it fails after two |
| LeaseLoss.NextRenewalFollows | crates/k8s/src/coordination.rs:186-207 | however a renewal ends, the next can begin |
| Rows.FoldIsFinalWord | crates/core/src/row.rs:60-86 | folding events leaves, for each uid, the last thing said about it |
| Rows.ReplayIsAbsorbed | crates/k8s/src/informers.rs:300-319 | re-applying a suffix of events already applied changes nothing |
| RowTable.EventRefinesFold | src/app/events.rs:270-342 | one event changes the visible rows (rows minus removing) as it changes a plain map |
| RowTable.RemovalIsInvisible | src/app/events.rs:318-342 | a removal timer changes no visible row, whenever it fires |
| RowTable.TableRefinesFold | src/app/events.rs:262-358 | over any interleaving of events, timers and transition ends the visible rows are the fold of the events |
| RowTable.SettledTableIsPlainMap | src/app/events.rs:262-358 | once all timers have fired nothing is entering or removing and the rows are the fold |
| RowTable.TimersCanFire | src/app/events.rs:318-342 | whatever timers are left can all fire, which settles the table |
| RowTable.EnteringIff | src/app/events.rs:270-342 | a row is shown as new if and only if it arrived in this run, and neither its timer nor a snapshot has come since |
| RowTable.LiveTable.ApplyEvent | src/app/events.rs:262-358 | the in-place reducer moves the table's state by the specified step and schedules its timers |
| RowTable.LiveTable.RunRemovalTimer | src/app/events.rs:318-342 | the timer drops the row only if it is still marked as removing |
| MergedTable.MergedKeysAreInjective | src/app/search_state.rs:25-27 | for kind keys built from group, version and kind, equal merged keys mean equal kind and uid |
| MergedTable.PrefixesDoNotOverlap | crates/core/src/resource.rs:22-24 | no kind's prefix begins another kind's merged key |
| MergedTable.EventTouchesOnlyItsKind | src/app/search_state.rs:35-88 | an event changes the visible rows of its own kind as a plain map and of no other kind |
| MergedTable.RemovalIsInvisible | src/app/search_state.rs:90-98 | finishing a removal changes no visible row of any kind |
| MergedTable.KindsDoNotInterfere | src/app/search_state.rs:25-98 | over any interleaving, what is visible of a kind is the fold of that kind's events alone |
| MergedTable.SettledTableIsTheFolds | src/app/search_state.rs:131-161 | once all timers have fired nothing is entering or removing, every row lies under its own kind and uid, and each kind has exactly the rows of its fold |
| MergedTable.TimersCanFire | src/app/search_state.rs:131-148 | whatever timers are left can all fire |
| MergedTable.EnteringIff | src/app/search_state.rs:57-75 | the same for a row of one kind, whatever the other kinds do |
| MergedTable.RemovingRowsAreThere | src/app/search_state.rs:76-84 | only rows that are there are on their way out |
| MergedTable.OverlappingKindsInterfere | src/app/search_state.rs:35-60 | a snapshot of one kind wipes another kind's row if and only if its prefix begins the row's key |
| MergedTable.SearchState.ReduceEvent | src/app/search_state.rs:35-88 | the in-place reducer moves the merged state by the specified step and returns its transitions |
| MergedTable.SearchState.FinishRemovalValues | src/app/search_state.rs:90-98 | the key is settled and its row gone if it was still marked, and nothing that is shown of any kind changes |
| Server.ContentsAreKeyed | crates/k8s/src/informers.rs:1018-1023 | every version of the collection is keyed by uid with unique names |
| Server.QuietContents | crates/k8s/src/informers.rs:678-682 | versions that changed nothing here (bookmarks) leave the contents alone |
| Informer.RefusalRelistsIff | crates/k8s/src/informers.rs:458-482 | which of all 4xx refusals, told by an answer with any text or by the stream, make the task list again, and which end it |
| Informer.MatchesStatus | crates/k8s/src/informers.rs:1051-1069 | the walk finds a word exactly when some text of the chain of errors contains one |
| Informer.WatchTask.Take | crates/k8s/src/informers.rs:429-727 | whatever the task is told at an await, its variables move as specified; at a commit the order and the index it picks are those of its rows and objects |
| InformerRun.FailureIsFinalIff | crates/k8s/src/informers.rs:683-722 | of all errors and statuses exactly these leave a task that never changes again, whatever follows: a text about permission, or one about neither permission nor authentication with a permanent cause, or a 4xx status but 401 and 410 |
| InformerRun.ExpiryIsFinalIff | crates/k8s/src/informers.rs:567-591 | after a 410 the task never changes again, whatever follows, if and only if it was not the stream's own and its text mentions permission or does not mention authentication |
| InformerRun.PassingFailureIsFinalIff | crates/k8s/src/informers.rs:1086-1088 | a failure that is not permanent ends the task for good if and only if its text mentions permission |
| InformerRun.PassingFailureIsRetried | crates/k8s/src/informers.rs:474-482 | without those words a broken connection, and an answer that is no 4xx or a bare 401 or 403, changes nothing that is shown: a listing starts over, a watch is opened again where it stood |
| InformerRun.PermanentFailureEnds | crates/k8s/src/table.rs:152-157 | without those words an answer that cannot be read, and any other 4xx, ends the task with an error, for good |
| InformerRun.StatusIsPublished | crates/k8s/src/informers.rs:683-705 | what a status of the stream does to a task, and which terminal event it sends |
| InformerRun.QuotedNumberDecides | crates/k8s/src/informers.rs:1067-1069 | whatever the cause, a text around 403 ends the task, and a text around 401 without another 3 or F makes it list again |
| InformerRun.RefusedForEver | crates/k8s/src/informers.rs:465-469 | after any number of refusals whose text mentions authentication and not permission, a listing task is where it began, whatever their code |
| InformerRun.ExpiredContinueTokenEndsTheTask | crates/k8s/src/informers.rs:458-482 | from any start, a continue token that expires between two pages, in words that do not ask for a relist, leaves the task without a row for ever, while the server goes on changing |
| Informer.WatchTask.TakePage | crates/k8s/src/informers.rs:449-558 | one LIST page, built aside and committed whole with the last page; rows, objects and name index agree at the commit |
| Informer.WatchTask.Commit | crates/k8s/src/informers.rs:540-558 | the caches are replaced together, and what is broadcast, folded over anything sent before, is what is cached |
| Informer.WatchTask.BuildRows | crates/k8s/src/informers.rs:492-534 | a page without an object's metadata fails the whole page |
| Informer.WatchTask.PutRow | crates/k8s/src/informers.rs:602-654 | the object has a row exactly when it is shown, no other row changes, and the broadcasts still fold to the rows |
| Informer.WatchTask.RemoveRow | crates/k8s/src/informers.rs:655-677 | the object's row is gone, no other row changes, and the broadcasts still fold to the rows |
| Informer.WatchTask.TakeUpsert | crates/k8s/src/informers.rs:602-654 | ADDED and MODIFIED apply their cells in order, stopping at the first without an object |
| Informer.WatchTask.TakeRemoval | crates/k8s/src/informers.rs:655-677 | DELETED applies its cells in order, passing over those without an object |
| InformerRun.BuildExtends | crates/k8s/src/informers.rs:449-534 | however a listing is split into pages, the pages build what one pass would |
| InformerRun.BuiltIsProjection | crates/k8s/src/informers.rs:492-558 | what a complete listing builds is the projection of the listed version |
| InformerRun.PutAgrees | crates/k8s/src/informers.rs:602-654 | applying an upsert event moves caches that agree with one version to agreement with the next |
| InformerRun.RemoveAgrees | crates/k8s/src/informers.rs:655-677 | applying a delete event does the same |
| InformerRun.DeliveredNext | crates/k8s/src/informers.rs:562-601 | what the stream delivers from the version the task asked for is the next change after the version its caches stand at: nothing is lost on resume |
| InformerRun.OpeningKeepsInv | crates/k8s/src/informers.rs:562-591 | the stream opens where the task stands, because that is the version it asks for |
| InformerRun.BroadcastsBeginWithASnapshot | crates/k8s/src/informers.rs:540-558 | a running task has broadcast rows only, a snapshot first |
| InformerRun.CommitKeepsInv | crates/k8s/src/informers.rs:540-558 | the commit of the last page establishes agreement with the listed version |
| InformerRun.StepKeepsInv | crates/k8s/src/informers.rs:429-727 | every server change, page, event, fault and retry keeps the invariant |
| InformerRun.RowsAreTheServersRows | crates/k8s/src/informers.rs:429-727 | in every run, after the first commit, the rows are the projection of the server's objects at the version last committed or consumed |
| InformerRun.NeverAPartialListing | crates/k8s/src/informers.rs:429-558 | before the first commit nothing is shown, afterwards always one whole version, also when the task stopped half way through an event |
| InformerRun.LookupAgreesWithScan | crates/k8s/src/informers.rs:348-378 | the lookup by name finds an object exactly when a scan of the cached objects does, and that one |
| InformerRun.SentEventsAddUpToRows | crates/k8s/src/informers.rs:540-677 | everything broadcast, folded, is the row cache |
| Fanout.TaskWriteKeepsInv | crates/k8s/src/informers.rs:636-637 | a cache write not yet broadcast keeps every subscriber's debt accounted for |
| Fanout.DrainedSubscriberHasTheRows | crates/k8s/src/informers.rs:300-319 | wherever subscribing fell between writes and sends, and after any lag and resync, a drained subscriber's fold is the row cache |
| Fanout.EndedSubscriberHasTheRowsIff | crates/k8s/src/informers.rs:300-311 | of all ways on from a subscriber's read, those that leave it with a terminal event all leave it with the final rows if and only if the terminal event was already written at the read |
| Fanout.EndedSubscriberKeepsItsSnapshot | crates/k8s/src/informers.rs:300-319 | in a given run it has the final rows if and only if, for every uid, the last later write that speaks of the uid says what it had read |
| Fanout.EndedSubscriberCanMissARow | crates/k8s/src/informers.rs:300-319 | a run in which a subscriber that read the empty cache is drained without the row of the task's first snapshot |
| Fanout.SomeSubscriberKeepsUp | crates/k8s/src/informers.rs:300-319 | any broadcasts a task makes before it ends can be followed to the last one |
| Fanout.TerminalIsSeenOnce | crates/k8s/src/informers.rs:1025-1043 | the terminal event reaches every drained subscriber exactly once, never before it is written |
| FanoutProgress.EverySubscriberCanCatchUp | src/server/api/watch.rs:61-81 | in every run every subscriber, however far behind, can be drained without another write: it then has the cached rows, or the terminal event once, and no other subscriber notices |
| Fanout.ResyncKeepsInv | src/server/api/watch.rs:61-81 | a lagged receiver that reads the rows again is in step again |
| Reproject.Entry.ReprojectEntry | crates/k8s/src/informers.rs:998-1016 | re-projection adds and removes no uid, and broadcasts exactly the changed rows, each once |
| Reproject.SubscriberStaysInStep | crates/k8s/src/informers.rs:998-1016 | folding those broadcasts over the old rows gives the new ones |
| IdleReaper.LiveReceiverKeepsItsInformer | crates/k8s/src/informers.rs:754-809 | in every run a live receiver's informer is the table's, so receivers of one key share one informer and others do not |
| IdleReaper.DoomedAfterTheGracePeriod | crates/k8s/src/informers.rs:777-790 | the reaper only dooms an informer that, during the whole grace period before, nobody subscribed to and no look found in use |
| IdleReaper.SweepCanReap | crates/k8s/src/informers.rs:754-809 | a sweep that starts when an informer has been idle for the grace period can go on to remove it |
| IdleReaper.IdleMarkStays | crates/k8s/src/informers.rs:777-790 | sweeps do not put off the end of an idle informer: until somebody subscribes its mark stays as it is, or it is gone |
| IdleReaper.MutexIsHeldUntil | crates/k8s/src/informers.rs:282-319 | a subscriber has the table to itself from attaching its receiver to clearing the mark |
| IdleReaper.LateUseIsLost | crates/k8s/src/informers.rs:793-806 | a run in which an informer is removed in the second it was last used |
| IdleReaper.LateUseDoesNotSave | crates/k8s/src/informers.rs:793-806 | after the decision a subscriber that comes and goes never saves its informer |
| IdleReaper.UnusedAtRemovalIff | crates/k8s/src/informers.rs:774-806 | up to the removal the informer is one unused for the whole grace period if and only if nobody cleared its mark in that period since the decision; if the sweep is quicker, if and only if the mark still stands |
| IdleReaper.StepKeepsInv | crates/k8s/src/informers.rs:282-319 | every step of subscribers and reaper keeps receivers, table and idle marks consistent |
| EndToEnd.TableShowsTheServer | src/app/events.rs:262-358 | a drained subscriber's table shows the projection of the server's objects, wherever its timers stand |
| EndToEnd.EveryTaskRunReachesATable | crates/k8s/src/informers.rs:300-319 | behind every run of a task that has committed and not stopped there are a drained subscriber and a table showing the server |
| EndToEnd.MergedTableShowsTheServer | src/app/search_state.rs:25-98 | the same for one kind of a merged table, whatever the other kinds do |
| SingleFlight.CountTwoMeansAlone | src/server/backends.rs:145-154 | with a reference count of two nobody but the task cleaning up has the lock |
| SingleFlight.CleanUpKeepsInv | src/server/backends.rs:145-154 | removing the table's lock then leaves every user of a lock with the table's lock |
| SingleFlight.StepKeepsInv | src/server/backends.rs:137-232 | every step of every task, including being dropped anywhere, keeps the invariant |
| SingleFlight.OneTaskPerSubject | src/server/backends.rs:193-232 | in every interleaving at most one task per subject builds, refreshes, logs in or evicts under the lock |
| SingleFlight.OneLockPerSubject | src/server/backends.rs:137-154 | two tasks using locks have the same lock exactly when they have the same subject |
| SingleFlight.WaitingTaskGoesOnIff | src/server/backends.rs:193-232 | in every run a waiting task can go on exactly when nobody works on its subject |
| SingleFlight.FreedLockCanBeTaken | src/server/backends.rs:137-154 | once whoever works on the subject unlocks, or is dropped, a waiting task can go on |
| SingleFlight.EvictionGoesOnIff | src/server/backends.rs:173-188 | an eviction does not wait: it goes on if nobody works on its subject and gives up otherwise |
| SingleFlight.EvictionCanOverlapABuildIff | src/server/backends.rs:173-188 | from every reachable state, an eviction starting now can come to run beside a build of its subject if and only if the table has no lock for it now |
| SingleFlight.UndisturbedResolveLeavesNoLock | src/server/backends.rs:145-154 | after a resolve nobody joined, the lock is gone from the table |
| BackendRegistry.Registry.EvictLocked | src/server/backends.rs:173-188 | an entry goes if and only if it is there and its lock is not held; locks in use stay |
| BackendRegistry.Registry.EvictOldest | src/server/backends.rs:322-360 | one pass removes the least recently active evictable entry, or shows there is none |
| BackendRegistry.Registry.EnforceCap | src/server/backends.rs:322-360 | exactly min(excess, evictable) entries go, the least recently active ones neither subscribed nor locked |
| BackendRegistry.OneMoreVictim | src/server/backends.rs:322-360 | the oldest of what is left, added to the oldest so far, are the oldest of all |
| BackendRegistry.Registry.Insert | src/server/backends.rs:305-315 | the entrant, whose build lock is held, survives; no more entries go than must, the least recently active of those not in use; the cap is met unless every remaining entry is in use |
| BackendRegistry.Registry.ReapPass | src/server/backends.rs:366-382 | exactly the idle entries nobody watches or builds are dropped |
| DrainJobs.RegistryInvariant | src/server/drain_jobs.rs:67-105 | in every run unfinished jobs have distinct targets, ids are below the counter, and event numbers are positions |
| DrainJobs.JobsOnlyMoveForward | src/server/drain_jobs.rs:160-256 | logs only grow, flags move one way, a finished job's log is frozen, ids are never reused |
| DrainJobs.IdsStrictlyIncrease | src/server/drain_jobs.rs:67-105 | ids handed out strictly increase |
| DrainJobs.CancelAndCommitExclude | src/server/drain_jobs.rs:160-208 | an accepted cancel and a granted commit never both happen to a job, in either order, with lease loss setting the flag at any time |
| DrainJobs.NoCancelAfterCommitOrFinish | src/server/drain_jobs.rs:160-249 | after a commit or the end neither is granted again |
| DrainJobs.JobIsItsHistory | src/server/drain_jobs.rs:67-256 | in every run the state of a job is told by the operations since its creation that named it: owner, target, end, flags, log and expiry |
| DrainJobs.CommitGrantedIff | src/server/drain_jobs.rs:198-208 | a commit is granted if and only if neither the owner, the lease, the end nor another commit came before: the race goes to the first |
| DrainJobs.CancelAcceptedIff | src/server/drain_jobs.rs:160-173 | a cancellation is accepted if and only if it is the owner's, before the end, and no commit came first; it is not found if and only if it is not the owner's or the job expired |
| DrainJobs.AcceptedCancelIsTheOwners | src/server/drain_jobs.rs:165-167 | only the one who created a job ever cancels it |
| DrainJobs.CreatedIff | src/server/drain_jobs.rs:67-105 | a job is created if and only if every earlier one on its target was told to finish |
| DrainJobs.ReplayIsTheTail | src/server/drain_jobs.rs:140-158 | `replay_after(n)` is exactly the log behind event n |
| DrainJobs.ViewerSeesThePlainLog | src/server/api/drain.rs:259-298 | replay and live delivery, also after lag, give a viewer a prefix of the log without gap or repetition, and once drained the whole log |
| DrainJobs.LogsEndWithTheirTerminalEvent | src/server/api/drain.rs:190-209 | in every run whose jobs emit progress and finish with a terminal event, that event closes the log |
| DrainJobs.EndedStreamIsWholeIff | src/server/api/drain.rs:259-298 | a stream that has ended gave the whole log if and only if it never lagged past the expiry of its job |
| DrainJobs.ViewerKnowsItIsWhole | src/server/api/drain.rs:259-298 | that is the case if and only if the last event it gave was a terminal one |
| DrainJobs.EveryStreamCanEnd | src/server/api/drain.rs:259-298 | wherever a stream stands beside a finished log, if it was not cut it can go on to its end and gives the whole log |
| DrainJobs.ExpiryCanCutAStream | src/server/api/drain.rs:289-291 | a viewer that lags beyond the channel until its job has expired is given nothing of a finished log |
| DrainJobs.JobTable.CreateFor | src/server/drain_jobs.rs:67-105 | a job is created unless an unfinished one has the target |
| DrainJobs.JobTable.Active | src/server/drain_jobs.rs:108-123 | the newest unfinished job of the owner |
| DrainJobs.JobTable.Subscribe | src/server/drain_jobs.rs:126-137 | replay and receiver are taken together: the stream starts with the whole log and nothing falls in between |
| DrainJobs.JobTable.ReplayAfter | src/server/drain_jobs.rs:140-158 | the owner, and nobody else, is given exactly the tail of the log behind the event named |
| DrainJobs.JobTable.CancelJob | src/server/drain_jobs.rs:160-173 | only the owner finds the job; of those it is accepted exactly while the job can be cancelled; it then shuts out the commit, a refused one changes nothing, the registry invariant is kept |
| DrainJobs.JobTable.TryCommit | src/server/drain_jobs.rs:198-208 | a granted commit was of an uncancelled job and shuts out every cancellation and a second commit; a refused one changes nothing |
| DrainJobs.JobTable.EmitEvent | src/server/drain_jobs.rs:210-224 | the log only grows and stays numbered by position, a done log stays as it is, other jobs do not notice |
| DrainJobs.JobTable.FinishJob | src/server/drain_jobs.rs:228-256 | the job is done, its log extends the old one, and it can be neither cancelled nor committed any more |
| PodMetrics.CachesFollowTheScrapes | crates/k8s/src/informers.rs:1135-1195 | usage and history hold exactly the pods of the last four scrapes; `misses` is the run of omissions; the history is the last 240 samples since the pod was last admitted, and the usage repeats its end |
| PodMetrics.DroppedOnTheFourthMiss | crates/k8s/src/informers.rs:1187-1192 | a kept pod is dropped exactly by its fourth omission in a row |
| PodMetrics.EmptyAnswersDoNotCount | crates/k8s/src/informers.rs:1141-1144 | scrapes without an answer leave no trace |
| PodMetrics.ScrapeActsOnEachPod | crates/k8s/src/informers.rs:1158-1192 | a scrape treats every pod by itself and keeps the two caches consistent |
| PodMetrics.Enrichment.Refresh | crates/k8s/src/informers.rs:1135-1195 | the in-place refresh reaches the specified caches, in whatever order pods are visited |
| NaturalSort.NatCmp | src/app/table_logic.rs:44-78 | the loop over shrinking texts ends and compares the token lists lexicographically |
| NaturalSort.NaturalOrderIsPreorder | src/app/table_logic.rs:44-78 | natural order is a total preorder that ties exactly names with the same tokens |
| NaturalSort.NumbersCompareByValue | src/app/table_logic.rs:42-78 | after a common start, numbers below 2^64 decide by value, then what follows them |
| NaturalSort.FirstDifferenceDecides | src/app/table_logic.rs:67-77 | two different characters that are not both digits decide by code point, whatever follows; a number stands where its first digit does |
| NaturalSort.StartComesFirst | src/app/table_logic.rs:44-50 | the start of a name comes before the name |
| NaturalSort.TrailingNumbersCompareByValueIff | src/app/table_logic.rs:59-66 | numbers at the end compare by value if and only if both fit 64 bits or they are equal |
| NaturalSort.HugeNumbersComeFirst | src/app/table_logic.rs:62-63 | a number of more than twenty digits comes before "1" |
| ShownRows.ItemOrderLaws | src/app/table_logic.rs:144-161 | the row comparison is a total preorder for every column and direction and ties only equal keys |
| ShownRows.ShownRowKeys | src/app/table_logic.rs:115-142 | the keys of the filtered rows, sorted |
| ShownRows.ShownIsSortedSelection | src/app/table_logic.rs:86-111 | what is shown is sorted and holds each row that passes the filters as often as it was given |
| ShownRows.ShownIff | src/app/table_logic.rs:123-131 | a row is shown if and only if it was given and each filter that is set lets it pass |
| ShownRows.ShownReadsInOrder | src/app/table_logic.rs:104-161 | down the list the column never falls, on ties the name, then the uid, then the key |
| ShownRows.ColumnReadsInOrder | src/app/table_logic.rs:144-161 | down an ascending list namespaces rise in natural order, or names do, or creation times do with those of no time first |
| ShownRows.StringsByCodePoint | src/app/table_logic.rs:154-161 | of two texts the first is the one that starts the other or has the smaller code point at the first difference |
| ShownRows.ShownIgnoresInputOrder | src/app/table_logic.rs:86-142 | the order in which the map yields its rows never shows |
| ShownRows.DescendingIsReversed | src/app/table_logic.rs:104-111 | descending order is ascending order reversed, ties included |
| ShownRows.UidKeysAddNothing | src/app/table_logic.rs:86-111 | for rows keyed by uid the key decides nothing the rows did not |
| PromQl.EscapeLabelValue | crates/k8s/src/promql.rs:146-157 | the loop escapes character by character |
| PromQl.EscapeRegex | crates/k8s/src/promql.rs:163-175 | the loop escapes exactly the metacharacters |
| PromQl.LabelValueRoundTrip | crates/k8s/src/promql.rs:146-157 | an escaped value is read back whole, and the literal ends where it should, whatever follows |
| PromQl.SelectorRoundTrip | crates/k8s/src/recommend.rs:155-162 | a selector of names is read back as an alternation of exactly those literals, in order |
| PromQl.SelectorMatchesItsNames | crates/k8s/src/recommend.rs:155-162 | the matcher accepts exactly the names, or the empty name for an empty list |
| PromQl.SelectorIsExactIff | crates/k8s/src/recommend.rs:155-162 | the selector stands for its names if and only if the list is not empty |
| PromQl.DurationRoundTrip | crates/k8s/src/promql.rs:181-192 | a printed duration reads back to the same number of seconds |
| VirtualWindow.WindowLayout | src/app/hooks.rs:238-273 | where both loops stop, and the exact leading and trailing space |
| VirtualWindow.StopsAtTheWindow | src/app/hooks.rs:238-273 | for non-negative heights a row is rendered if and only if it reaches into the window or is an empty row standing in it |
| VirtualWindow.RenderedExtentIsBounded | src/app/hooks.rs:238-273 | the rendered rows are shorter than viewport, overscan on both sides and two rows |
| VirtualWindow.WindowCoversTheScreen | src/app/hooks.rs:245-248 | of the rows that take up room, the window holds exactly those that overlap the viewport, or twelve estimated rows on either side of it |
| VirtualWindow.RowsAddTheirHeights | src/app/hooks.rs:201-208 | a collapsed row adds nothing, a measured one its measure, any other the estimate |
| VirtualWindow.VariableWindowLayout | src/app/hooks.rs:193-214 | with measured, estimated and collapsed rows (rows of one fixed height are those of which none is measured): height is conserved, exactly the rows on or near the screen are rendered, the extent is bounded |
| KernelLog.SegmentsRejoin | crates/talos/src/dmesg.rs:118-133 | the segments hold no newline and rejoin to the record |
| KernelLog.ShortSegmentReads | crates/talos/src/dmesg.rs:134-143 | a segment within the bound is decoded as it is, but for one carriage return at its end |
| KernelLog.LongSegmentReads | crates/talos/src/dmesg.rs:134-143 | a longer one is cut at the bound, freed of a carriage return there, and marked |
| KernelLog.NewestIsLongestFit | crates/talos/src/dmesg.rs:146-154 | what is kept is the longest end of the lines that fits both bounds |
| KernelLog.NewestAbsorbs | crates/talos/src/dmesg.rs:134-155 | evicting after every line keeps what evicting once at the end would |
| KernelLog.DmesgLines.PushRecord | crates/talos/src/dmesg.rs:118-133 | a record adds exactly its lines, byte by byte |
| KernelLog.DmesgLines.FinishPending | crates/talos/src/dmesg.rs:134-155 | a line is cut at the bound, freed of one trailing carriage return and marked when cut; an empty segment gives none |
| KernelLog.DmesgLines.Keep | crates/talos/src/dmesg.rs:144-154 | the byte count is exactly the sum of the kept lines, so the subtraction never saturates |
| KernelLog.DmesgLines.TakeCompleted | crates/talos/src/dmesg.rs:157-160 | the newest lines since the last take that fit both bounds |
| KernelLog.Snapshot | crates/talos/src/dmesg.rs:38-53 | the first lines shown are the newest of the whole snapshot that fit |
| KernelLog.Follow | crates/talos/src/dmesg.rs:66-91 | following yields, record by record, the newest lines that fit |
| KernelLog.FollowLosesNothingIff | crates/talos/src/dmesg.rs:78-86 | a followed record loses no line if and only if its lines fit both bounds |
| ConfigSnapshot.FlattenConfig | crates/talos/src/config_snapshot.rs:96-128 | the recursion into a shared map adds exactly the projection of the value |
| ConfigSnapshot.Snapshot | crates/talos/src/config_snapshot.rs:55-94 | the fields of all safe roots, and a fingerprint that depends on nothing else |
| ConfigSnapshot.NoSecretIsPlain | crates/talos/src/config_snapshot.rs:96-148 | at any depth a field is a digest if and only if its path is sensitive |
| ConfigSnapshot.ScalarGivesItsField | crates/talos/src/config_snapshot.rs:96-128 | a value that holds no others gives one field: its text, or a digest where the path is sensitive |
| ConfigSnapshot.MembersAndElementsGiveTheirFields | crates/talos/src/config_snapshot.rs:112-121 | each member of an object is projected under its key and each element of an array under its index |
| ConfigSnapshot.SnapshotHidesSecrets | crates/talos/src/config_snapshot.rs:55-128 | configurations that agree but for values at or below sensitive keys, or outside the roots, have the same paths and the same plain fields |
| ConfigSnapshot.SnapshotPathByPath | crates/talos/src/config_snapshot.rs:55-128 | for keys without slashes, every value reached from a safe root over no sensitive key gives its own field, and nothing else does |
| ConfigSnapshot.EveryFieldHasAPath | crates/talos/src/config_snapshot.rs:73-78 | every field lies at or below a safe root |
| ConfigSnapshot.LastKeyDecides | crates/talos/src/config_snapshot.rs:130-135 | a path is as sensitive as its last key, from that key's last slash on |
| ConfigSnapshot.SensitiveKeyIff | crates/talos/src/config_snapshot.rs:130-148 | which keys are sensitive, in letters of either case: these words anywhere or at the end, and nothing else |
| ConfigSnapshot.CaseDoesNotMatter | crates/talos/src/config_snapshot.rs:130-135 | keys that differ only in case are equally sensitive |
| LogStream.PushStep | src/app/log_stream.rs:37-58 | dropping an evicted first line and adding a passing new one gives the view computed anew |
| LogStream.EvictionIsLocal | src/app/log_stream.rs:50-53 | with rising ids the first id of the view tells whether the evicted line is in it |
| LogStream.PodLineMatchesIff | src/app/log_stream.rs:92-104 | a line with a pod passes if and only if its message has the level asked for and the pod or the message the text |
| LogStream.PlainLineMatchesIff | src/app/log_stream.rs:92-104 | a line without a bar passes if and only if it has the level and the text |
| LogStream.LogView.Receive | src/app/log_stream.rs:37-58 | after every line the view is the filtered buffer, and the buffer the newest 1000 lines |
| LogStream.LogView.SetFilters | src/app/log_stream.rs:61-72 | a filter change shows the buffer under the new filters |
| LogStream.LogView.Open | src/app/log_stream.rs:33-36 | a new stream starts empty while ids go on |
| LogStream.LogView.PushBounded | src/app/log_stream.rs:85-90 | the oldest line goes, and its id is returned, exactly when the buffer was full |

## Left out

- Network and transport, authentication, TLS, storage and views: outside code; the API
  server and the broadcast channel appear as the assumptions stated in the models.
- Lease liveness under contention, wall-clock time and jitter: the protocol is proved safe
  without clocks, and a vacant lease is shown to be obtainable.
- Lease object names (`lease_name`): a hash whose collisions would only make two nodes
  share a lease.
- Convergence of kinds that are re-projected while their watch task runs: two writers
  interleave a write and its send, so only the single-writer statement is proved;
  `Reproject` covers the re-projection itself.
- The order of the two cache locks in `cached_object`: the model reads index and cache
  together, at the watch task's event boundaries.
- Snapshot headers, trends, labels and the suspended mark of rows: they ride along with
  the cells.
- The wording of errors: an error is a cause and any texts, of which the program asks its two
  questions; how the client library words them is not part of this model.
- Counters that wrap (`u64`, `usize`), and the saturation of `misses` beyond four.
- Sorting by a cell's text: its comparison mixes numbers and text and is not transitive,
  so no order theorem holds for it.
- Unicode lower-casing and lossy decoding: functions of the text that the theorems leave
  arbitrary. The same holds for SHA-256 and for reading the level of a log line.
- PromQl.ScanLiteral: knows the single-letter escapes only; printed literals need no more.
- PromQl.ParseRegex: knows literals, escapes, `.`, repetition and alternation, and refuses
  groups, classes and anchors.
- Floating point: pixels and metrics are real numbers.
- Stale lock entries of backends that a dropped task leaves behind: they stay in the table,
  as in the program; only "never two locks for one subject" is proved.
- Picking the machine document out of several configuration documents, keyboard motion, the
  burst buffer in front of the reducers, and the recommender's aggregation: easy members.
- LeaseLoss.CancelledAfterThreeFailures: takes the cancel flag to be registered before the
  first renewal; the program hands it over right after acquiring.
- NaturalSort.NatCmp: compares characters by code point, which is the order of the text's
  UTF-8 bytes.
- Informer.WatchTask.TakePage: leaves the order of the snapshot's rows and the choice among
  equal names in the index open, as the program's hash maps do.
- KernelLog.Follow: models the stream up to its end; the metadata check that fails a chunk is
  not part of it.
