# openworkers-runner in Dafny

The runner serves Workers and Durable Objects. This project models its
concurrent protocols and proves what they promise of every run.

A protocol is a step machine: a state, a `Step` datatype with one constructor
per critical section, atomic access or single write to a store, `Enabled`, and
`Apply`. A run is a sequence of states and of steps, in any interleaving. A
step that writes to a store can be answered, applied without an answer, or not
applied. Structures that the source updates in place under a lock are also
classes, whose methods are proved against functions on values. The machines of
the registry, the resolution cache and the worker semaphores use those same
functions. The D1 machine follows one database through the map of open
databases and the archive; `SnapshotLinks` shows that what these do are its
steps.

| file | models |
|---|---|
| `Registry.dfy`, `RegistryRuns.dfy`, `RegistryAnswers.dfy` | the registry of Durable Objects, the tasks it starts, and who gets an event |
| `Alarms.dfy`, `AlarmRuns.dfy`, `AlarmSets.dfy`, `AlarmMarks.dfy`, `AlarmDeliveries.dfy`, `AlarmRetries.dfy`, `AlarmTimes.dfy` | the alarm of an object, which both its file and the index hold |
| `AlarmLocks.dfy` | the map of alarm locks |
| `ResolveCache.dfy`, `ResolveRuns.dfy` | the resolution cache and its listener |
| `D1Keys.dfy`, `Archive.dfy`, `ArchiveRuns.dfy`, `D1Service.dfy` | D1 keys, the archive of snapshots, alone and under many runners, the map of open databases |
| `SnapshotRuns.dfy`, `SnapshotPasses.dfy`, `SnapshotFaults.dfy`, `SnapshotLinks.dfy` | one database over many runners; what a pass and a reset do to its entry; that its conditions are exact; how the archive and the map are steps of it |
| `CodeCache.dfy`, `SocketRuns.dfy`, `WorkerLimiters.dfy`, `CronRuns.dfy`, `CallDepths.dfy` | the byte-bounded LRU, object sockets, worker semaphores, cron claims, call depths |

## What the code does not promise

These properties, which the comments state or a reader may expect, are false of
the code. Each has a run that breaks it, and the condition under which it holds.

- An alarm of the file stays in the index. A delivery reads the file outside the
  alarm lock and, if it is early, settles the index with what it read; a `set`
  in between is lost (`AlarmRuns.ASetInTheWindowIsLost`). An alarm stays covered
  exactly when every early settle is harmless (`AlarmRuns.CoveredExactly`).
- A row marked as delivering is being delivered. A settle that is not applied, a
  claim applied without an answer, and a crash leave the mark behind; exactly
  these do (`AlarmMarks.AttendedExactly`). From there on no alarm of the object
  is claimed until a runner starts or the alarm is deleted
  (`AlarmMarks.StuckUntilFreed`, with the run `AlarmMarks.AStuckAlarm`).
- One delivery of an alarm at a time. Deleting an alarm removes its row with the
  mark, and a runner that starts resets all marks, so two can overlap
  (`AlarmDeliveries.TwoDeliveries`). They exclude each other as long as no mark
  goes from under a delivery, and every step that takes one allows a second
  delivery (`AlarmDeliveries.UnmarkingAllowsAnother`).
- What is counted as saved is in the newest snapshot. It is, in every run whose
  steps are sound (`SnapshotRuns.SavedIsHeld`), and after such a run a step can be
  followed by sound steps to a lost commit if and only if it is not sound itself
  (`SnapshotFaults.LostExactly`). Three things make a step of the code unsound, and
  each has a run with that one step:
  - a copy of the newest runner between the hook that counts a commit, which
    SQLite calls first, and the commit (`SnapshotFaults.ACommitIsForgotten`);
  - a call of the newest runner between the two halves of a reset, which removes
    the entry under the lock and moves the files after it
    (`SnapshotFaults.AResetIsDisturbed`);
  - a runner that starts in a data directory with a file that lacks a commit some
    runner stored as saved, or is about to: a restore does not replace a file that
    is there (`SnapshotFaults.AnOldFileLosesACommit`).

  What fenced runners do is never unsound. Without the fence it would be
  (`SnapshotFaults.WithoutTheFence`). That the newest runner also works on a file
  that begins with the newest snapshot has a condition of its own, exact in the same
  sense (`SnapshotFaults.BrokenExactly`).
- A set gets a run of the handler. A set for the very time of the delivery under way
  is taken for the alarm that was delivered, and cleared with it
  (`AlarmSets.ASetIsDropped`). An alarm leaves the file only by a later set or
  delete, or after a run that started once the set was there, if no set clashes so
  (`AlarmSets.SetsAreServed`), and exactly a clash can end otherwise
  (`AlarmSets.DropsExactly`).
- A failed save leaves the latest snapshot as it was (`src/d1/archive.rs:5-6`).
  This holds exactly when the insert was not applied
  (`Archives.Archive.Save`); an insert that is applied and whose answer is lost
  leaves the new row on top (`Archives.AnUnansweredInsert`), whole.
- The cache answers nobody without a connected listener
  (`src/resolve_cache.rs:6-8`). The flag is set exactly while the listener
  listens, or sleeps after it did (`ResolveRuns.OnWhileListening`), and a lookup
  asks the cache exactly if it begins then (`ResolveRuns.AsksExactly`). So a
  request can be answered in that second (`ResolveRuns.AHitWithoutAListener`):
  once the stop has cleared the cache, with something that was read after the stop
  (`ResolveRuns.HitsAfterAStop`), and until then still with something of the session
  that ends (`ResolveRuns.NothingSurvivesASession`).
- An entry of the lock map goes with its last user. It is left exactly when the
  last task to end was cancelled, or saw a reference of another task in its check
  (`AlarmLocks.EntryLeftExactly`), which two tasks that check at once bring about
  (`AlarmLocks.AnEntryCanStay`). Exclusion holds regardless.

## Model

| member | source | states |
|---|---|---|
| `RegistryRuns.OldAndNewNeverOverlap` | src/durable/mod.rs:408-590 | in every reachable state, at most one task of an object is between the end of its wait for its predecessor and the close of its mailbox |
| `RegistryRuns.NoEventIsLost` | src/durable/mod.rs:432-438 | an accepted event is in its own task's mailbox, or taken, or dropped, in exactly one of these; only a failed task drops, a task that left took all |
| `RegistryRuns.TakenInOrder` | src/durable/mod.rs:526-536 | the events of an object are taken once, in acceptance order, also across its tasks |
| `RegistryRuns.CountsAreExact` | src/durable/mod.rs:226-250 | both counts equal the tasks that did not release, no release panics, no account exceeds 100 |
| `RegistryRuns.LeaveTakesItsOwn` | src/durable/mod.rs:569-590 | `leave` closes the mailbox exactly if it is empty, and then removes its own entry and that of no other generation; else it changes nothing |
| `RegistryRuns.StopIsFinal` | src/durable/mod.rs:255-270 | once `stop_namespace` answers true, no task of the namespace runs in any later state |
| `RegistryRuns.StoppedForGood` | src/durable/mod.rs:408-424 | a stopped namespace without tasks never gets one again |
| `RegistryRuns.TakeIsLatest` | src/durable/mod.rs:454-487 | what a task takes was accepted after everything already taken of its object, whichever task took it |
| `RegistryRuns.StartsAlone` | src/durable/mod.rs:432-462 | `admit` starts a task only when every open task of the object is one that retires, or older than it |
| `RegistryRuns.ReleaseCounts` | src/durable/mod.rs:226-250 | the drop of a task finds both counts above zero and keeps them exact |
| `RegistryAnswers.TakenExactly` | src/durable/mod.rs:408-444 | an event is accepted if and only if its namespace is not stopped and a task of the object is open and not retired, or fewer than 100 tasks of the account have not ended |
| `RegistryAnswers.ItsTaskTakesIt` | src/durable/mod.rs:432-438 | if such a task is there, the event is the last one in its mailbox, nothing starts, and it is the newest task of the object |
| `RegistryAnswers.ANewTaskTakesIt` | src/durable/mod.rs:440-471 | else, with room in the account, one new task has it, which waits exactly if a retiring one is noted |
| `RegistryAnswers.RefusedExactly` | src/durable/mod.rs:426-444 | a refusal changes nothing, and is for a stopped namespace, or an account with exactly 100 tasks none of which serves the object |
| `RegistryAnswers.RetiredTakesNothing` | src/durable/mod.rs:289-317 | no event accepted after a retirement goes to a task that ran the retired version |
| `RegistryAnswers.RetireSparesOthers` | src/durable/mod.rs:289-317 | a retirement leaves every other task as it was |
| `RegistryAnswers.StoppedExactly` | src/durable/mod.rs:255-270 | a namespace is stopped if and only if a stop of it came |
| `RegistryAnswers.StartsAfterTheEnd` | src/durable/mod.rs:466-484 | a task started behind another is not past its wait until that one has given its counts back and is over |
| `DurableRegistry.Registry.Admit` | src/durable/mod.rs:408-487 | when each answer is given: deleted, delivered to the open mailbox even of a full account, too many, or started behind the retiring task; and the whole new table |
| `DurableRegistry.Registry.Leave` | src/durable/mod.rs:569-590 | answers whether the mailbox was empty; then its own entry goes and the mailbox closes, else nothing changes |
| `DurableRegistry.Registry.Retire` | src/durable/mod.rs:289-317 | exactly the entries of that worker and version move from the table to the retiring map |
| `DurableRegistry.Registry.StopNamespace` | src/durable/mod.rs:255-270 | the namespace is stopped, its entries are gone, and the answer is whether no task of it is counted |
| `DurableRegistry.Registry.Drop` | src/durable/mod.rs:226-250 | both counts go down by one, and the retiring mark of this generation goes |
| `DurableRegistry.Registry.SetVersion` | src/durable/mod.rs:510-514 | a loaded version is noted in the entry of the same generation only |
| `DurableRegistry.RetireOne` | src/durable/mod.rs:289-317 | retiring a set of entries is retiring them one by one |
| `AlarmRuns.CoveredExactly` | src/durable/alarms.rs:299-432 | over every interleaving, failed write and crash, the index holds the alarm of the file at its time or earlier, or at most 64 s after the clock of a failed or deferred run, if and only if every early settle is harmless |
| `AlarmRuns.FileAlarmIsIndexed` | src/durable/alarms.rs:49-148 | so it does in every run where no set lands between the first read of a delivery and its early settle |
| `AlarmRuns.ASetInTheWindowIsLost` | src/durable/alarms.rs:328-352 | a run that ends with an alarm in the file, no index row, and nothing under way |
| `AlarmTimes.HandlersAreDue` | src/durable/alarms.rs:340-352 | no handler starts, runs or ends before the time of its alarm, however early the index is |
| `AlarmTimes.EarlyExactly` | src/durable/alarms.rs:340-352 | a delivery settles early if and only if the alarm it read from the file is missing or after its clock; else it goes to the handler of that alarm |
| `AlarmTimes.StartsDue` | src/durable/alarms.rs:152-171 | a delivery starts only on a row that is due and unmarked, with the failed runs of that row, and marks it |
| `AlarmTimes.DeferredExactly` | src/durable/alarms.rs:299-338 | a delivery is put off if and only if its namespace or file cannot be read or its run is refused, with the failed runs of the row it was claimed from and none more |
| `AlarmTimes.DeferredWaitsASecond` | src/durable/alarms.rs:425-432 | a delivery that is put off leaves the index one second after its clock, with the same count |
| `AlarmTimes.ReplacementStartsAfresh` | src/durable/alarms.rs:191-203 | an alarm that replaced the one of a delivery is indexed at its own time with no failed run, however the delivery went |
| `AlarmTimes.ClearedIsSettled` | src/durable/alarms.rs:407-413 | after an answered clear, file and index have the same: nothing, or the alarm that replaced the delivered one, with no failed run |
| `AlarmTimes.UnansweredClearWaits` | src/durable/alarms.rs:407-413 | after a clear without an answer, the index waits as after the failed runs there were, and counts those |
| `AlarmTimes.SetIsIndexed` | src/durable/alarms.rs:113-148 | when a set ends well, file and index both have what was set, with no failed run, and a row under delivery stays marked |
| `AlarmSets.SetsAreServed` | src/durable/alarms.rs:191-203 | without a clash, an alarm leaves the file only by a later set or delete, or by the clear after a run of its handler that started once the last set was in the file |
| `AlarmSets.DropsExactly` | src/durable/alarms.rs:397-413 | after a run without a clash, a step can be followed by steps without one to the clear of a set that got no run, if and only if it is a set for the time of a delivery whose handler started and may not run again |
| `AlarmSets.ASetIsDropped` | src/durable/alarms.rs:397-413 | a run in which a handler sets its alarm for the same time and no handler runs for that set |
| `AlarmMarks.AttendedExactly` | src/durable/alarms.rs:159-171 | in every state a marked row has a delivery under way, if and only if no crash, unapplied settle or unanswered claim leaves the mark behind |
| `AlarmMarks.AlarmIsServed` | src/durable/alarms.rs:113-148 | so an alarm of the file is in the index in time, in a row that is free to be claimed or being delivered |
| `AlarmMarks.StuckUntilFreed` | src/durable/alarms.rs:77-109 | once a mark is left behind, no claim of the object is possible until a reset or a delete, however often the alarm is set |
| `AlarmMarks.AStuckAlarm` | src/durable/alarms.rs:228-246 | a run that ends with an alarm due in file and index, marked, and no delivery |
| `AlarmRetries.SevenFailuresAtMost` | src/durable/alarms.rs:379-432 | with no further set, the handler fails seven times at most, plus once for each failed run that a crash cut off; the index counts exactly the others whatever was refused or deferred, and after the seventh the alarm is gone |
| `AlarmRetries.FailedRunsBackOff` | src/durable/alarms.rs:191-203 | after the n-th failed run that counts, n up to 6, the index waits 2^n seconds from the clock of the settle |
| `Alarms.Backoff` | src/durable/alarms.rs:175-177 | a wait doubles with each retry, from 1 s to 64 s, and stays there |
| `AlarmDeliveries.DeliveriesExclude` | src/durable/alarms.rs:159-171 | deliveries of one alarm exclude each other as long as no mark goes from under one |
| `AlarmDeliveries.UnmarkingAllowsAnother` | src/durable/alarms.rs:77-109 | from every such state, a step that takes the mark can be followed by a second delivery |
| `AlarmDeliveries.TwoDeliveries` | src/durable/alarms.rs:85-101 | a run in which a handler deletes and sets its alarm and a second delivery starts |
| `AlarmLocks.LockedWorkIsExclusive` | src/durable/alarms.rs:31-46 | two tasks never hold the lock of one object at once, although map entries come and go |
| `AlarmLocks.LockInUseIsMapped` | src/durable/alarms.rs:31-46 | a lock that is held or waited for is the lock of the map |
| `AlarmLocks.NextCanHaveIt` | src/durable/alarms.rs:31-46 | once the task that works on an object is done or cancelled, nobody holds its lock and whoever waits can have it |
| `AlarmLocks.CheckRemovesExactly` | src/durable/alarms.rs:38-43 | the entry goes if and only if no other task has a reference |
| `AlarmLocks.EntryLeftExactly` | src/durable/alarms.rs:31-46 | once the tasks of an object are gone, its entry is left if and only if the last of them to end was cancelled or saw another reference in its check |
| `AlarmLocks.AnEntryCanStay` | src/durable/alarms.rs:38-43 | a run of two tasks that ends with an entry and no task |
| `ResolveRuns.HitsAreFresh` | src/resolve_cache.rs:175-203 | a hit is what the database resolved for that path, on a version no older than any invalidation that cleared the cache, within the TTL |
| `ResolveRuns.AnsweredExactly` | src/resolve_cache.rs:70-81 | a lookup is answered from the cache if and only if an entry for its key, or for it without its path, is less than a minute old |
| `ResolveRuns.StoresExactly` | src/resolve_cache.rs:127-140 | a lookup goes on to store its answer if and only if no invalidation began since it read the generation |
| `ResolveRuns.APutIsThere` | src/resolve_cache.rs:134-140 | what a lookup stores is in the cache under its key or for every path, with its time, is found at once, and takes the place of no other entry |
| `ResolveRuns.InvalidationsClear` | src/resolve_cache.rs:150-155 | a notification, a connection, a stop or any other invalidation has cleared what was read before it, once its clear came |
| `ResolveRuns.ListenerWaits` | src/resolve_cache.rs:282-287 | a notification makes the listener wait for the clear of that one invalidation |
| `ResolveRuns.ListenerClears` | src/resolve_cache.rs:247-290 | the listener works on each of its invalidations until that one has cleared the cache |
| `ResolveRuns.StoresAreFresh` | src/resolve_cache.rs:120-155 | no lookup stores what it read before an invalidation that has cleared the cache |
| `ResolveRuns.NothingSurvivesASession` | src/resolve_cache.rs:247-290 | while the cache is on, from a connection to the next start, it holds nothing read before that connection |
| `ResolveRuns.OnWhileListening` | src/resolve_cache.rs:247-290 | the flag is set if and only if the listener listens, or sleeps after a session in which it did |
| `ResolveRuns.AsksExactly` | src/resolve_cache.rs:120-124 | a lookup goes past the cache if and only if it begins while the flag is not set |
| `ResolveRuns.HitsAfterAStop` | src/resolve_cache.rs:247-258 | a hit after a stop that cleared the cache was read after that stop began |
| `ResolveRuns.AHitWithoutAListener` | src/resolve_cache.rs:247-258 | a run in which a request that begins after the stop finds its answer in the cache |
| `ResolveRuns.ClearedStays` | src/resolve_cache.rs:150-155 | an invalidation that cleared the cache stays so in every later state |
| `ResolveRuns.PutIsGood` | src/resolve_cache.rs:86-95 | what is stored without a path answers every path, if the database resolves a worker of no project alike for every path |
| `ResolveCache.StoredForEveryPath` | src/resolve_cache.rs:83-95 | an answer is stored for every path if and only if it has a worker and no project; else under its own key |
| `ResolveCache.FoundExactly` | src/resolve_cache.rs:70-81 | a lookup finds the fresh entry without a path, else the fresh exact one, else none |
| `ResolveCache.Cache.Lookup` | src/resolve_cache.rs:70-81 | an answer is that of the fresh entry without a path, else of the exact one; none if and only if neither is fresh; the entries it looks at count as used |
| `ResolveCache.Cache.Store` | src/resolve_cache.rs:134-140 | stores if and only if the cache is on and the generation unchanged, and gives the whole new cache: the key is the most recently used, the others keep their answers and order |
| `ResolveCache.OnlyTheOldestGoes` | src/resolve_cache.rs:86-95 | a store gives up an entry only if the cache is full and the key new, and then the least recently used one |
| `ResolveCache.OrderIsOfLastUse` | src/resolve_cache.rs:57-95 | lookups and stores keep the entries in the order of their last use, so a full cache gives up the one used longest ago |
| `D1Keys.ParseUndoesObjectKey` | src/d1/mod.rs:55-71 | `parse_object_key` gives back what `object_key` was made of |
| `D1Keys.UuidIsNoObject` | src/d1/mod.rs:67-71 | a D1 database id is never taken for an object |
| `D1Keys.SnapshotKeysAreDistinct` | src/d1/archive.rs:104-112 | two snapshots with one key are of the same database, epoch and stamp |
| `Archives.RowsShareNoKey` | src/d1/archive.rs:104-112 | in a sound archive, no two index rows share an object |
| `Archives.NewKeyIsUnused` | src/d1/archive.rs:104-112 | a save uploads under a key that no row uses |
| `Archives.ForgetIsSound` | src/d1/archive.rs:134-143 | forgetting a row leaves the others whole, and its object to no row |
| `Archives.Archive.Save` | src/d1/archive.rs:104-150 | ends if and only if the insert is applied and answered; a failed save leaves the rows if and only if the insert was not applied, else the new row is on top; a save puts its row on top and drops only rows beyond `keep`, all of them if the cleanup ends; other databases keep their rows; every row keeps its whole object, and no other object changes |
| `Archives.Archive.Upload` | src/d1/archive.rs:116-121 | succeeds if and only if the upload is answered and its size checks, and is then whole |
| `Archives.Archive.Record` | src/d1/archive.rs:320-362 | the row is on top if and only if the insert is applied and this is the latest epoch |
| `Archives.AnUnansweredInsert` | src/d1/archive.rs:320-362 | a save that fails and leaves its row |
| `Archives.Archive.Clean` | src/d1/archive.rs:134-147 | the newest `keep` rows stay, and exactly these if it ends |
| `Archives.Archive.DropFrom` | src/d1/archive.rs:134-143 | the rows from a place on go one by one until a failure; no object of another row goes |
| `Archives.Archive.FetchLatest` | src/d1/archive.rs:153-177 | gives the bytes of the newest row; never a missing object or a wrong checksum |
| `Archives.Archive.ForgetAll` | src/d1/archive.rs:180-189 | removes rows from the newest on, all if it ends, and keeps the archive sound |
| `ArchiveRuns.EveryRowHasItsObject` | src/d1/archive.rs:104-150 | under any number of runners, with saves, cleanups, removals and purges interleaved and any request failed or unanswered, every row has its whole object, shares it with no other row, and the rows of a database have falling stamps |
| `ArchiveRuns.NewestRowStays` | src/d1/archive.rs:134-147 | unless the database is removed, no cleanup of any runner takes its newest row |
| `ArchiveRuns.HeadPassesExactly` | src/d1/archive.rs:118-121 | a save goes on to its insert if and only if the size is answered and the store has its bytes, whole |
| `ArchiveRuns.InsertsExactly` | src/d1/archive.rs:320-362 | its row comes on top of its database if and only if the insert is applied and no runner started later; it cleans up if that was answered |
| `ArchiveRuns.CleanupIsComplete` | src/d1/archive.rs:134-147 | when a cleanup has nothing left to drop, the rows beyond the newest `keep` that it listed are gone, and after its last delete their objects too |
| `ArchiveRuns.RemovalTakesAll` | src/d1/archive.rs:180-189 | a removal that has nothing left to drop took every row it listed, with its object |
| `ArchiveRuns.GoesOnExactly` | src/d1/archive.rs:134-143 | a cleanup goes on to its next row if and only if its request was answered, one row at a time |
| `ArchiveRuns.ObjectsGoExactly` | src/d1/archive.rs:134-143 | an object leaves the store if and only if a delete of its row is applied |
| `D1Service.Service.Oldest` | src/d1/mod.rs:615-633 | an entry that is open and in no use, and was used no later than any other such entry; none if there is none |
| `D1Service.Service.Open` | src/d1/mod.rs:608-646 | the whole new map: the entry in use, and room made by the oldest entry if too many are open |
| `D1Service.Service.CloseIdle` | src/d1/mod.rs:741-755 | an entry goes if and only if it is in no use, idle and saved; one with unsaved commits loses its connection; the others do not change |
| `D1Service.UnsavedEntriesStay` | src/d1/mod.rs:134-150 | neither removes, nor changes the counts of, an entry in use or with unsaved commits |
| `SnapshotRuns.SavedIsHeld` | src/d1/mod.rs:812-867 | over any number of runners, whichever save step failed and whoever was fenced out, the newest snapshot holds every commit any runner stored or counts as saved |
| `SnapshotRuns.PrefixDurability` | src/d1/mod.rs:812-867 | in runs whose starts find current files, moreover, every snapshot is a prefix of the history of the newest runner |
| `SnapshotRuns.SavedForGood` | src/d1/archive.rs:320-362 | what a pass stored as saved is in the newest snapshot of every later state, whatever runners start, fail or reset |
| `SnapshotRuns.SnapshotsGrow` | src/d1/archive.rs:304-362 | a newest snapshot extends every newest snapshot before it, across epochs |
| `SnapshotRuns.PrefixExactly` | src/d1/mod.rs:840-867 | the newest runner has the newest snapshot in its file if and only if every runner started without a file or with a current one |
| `SnapshotRuns.RestartIsCurrent` | src/d1/mod.rs:287-314 | a restart where the newest runner left off finds a current file |
| `SnapshotRuns.UnsavedCommitKeepsItsEntry` | src/d1/mod.rs:775-790 | a commit that the newest snapshot lacks and no reset gave up keeps its entry in the map of its runner, unsaved, so the next pass lists it |
| `SnapshotRuns.SavedIsAll` | src/d1/mod.rs:134-150 | without unsaved commits, or without an entry, all a runner committed is in the newest snapshot or given up by a reset |
| `SnapshotPasses.PassSavesExactly` | src/d1/mod.rs:812-836 | a pass that ends has stored the count its entry had when the pass began, and the entry has unsaved commits afterwards if and only if one was counted in between |
| `SnapshotPasses.QuietPassLetsGo` | src/d1/mod.rs:608-646 | after a pass during and since which no commit was counted, an eviction removes the entry |
| `SnapshotPasses.HeldExactly` | src/d1/mod.rs:775-810 | an entry without callers can be evicted exactly if no pass is under way, whether the last one ended well or not |
| `SnapshotPasses.ResetRestores` | src/d1/mod.rs:840-867 | the first open after a reset moved the file finds the newest snapshot, or an empty database if there is none |
| `SnapshotPasses.ResetTakesTheEntry` | src/d1/mod.rs:871-890 | a reset takes the entry out of the map, and gives up the commits that the newest snapshot lacks |
| `SnapshotPasses.FileChangesExactly` | src/d1/mod.rs:840-910 | the file of a runner changes only by a commit to its end, and goes exactly when a reset moves it |
| `SnapshotFaults.AMissedCommitCanBeLost` | src/d1/sqlite.rs:163-166 | every copy of the newest runner between a count and its commit can be followed by steps that meet all conditions and lose the commit |
| `SnapshotFaults.ACommitIsForgotten` | src/d1/mod.rs:812-836 | such a run, with no other step that breaks a condition |
| `SnapshotFaults.ACallInAResetCanBeLost` | src/d1/mod.rs:871-910 | every call of the newest runner in the middle of a reset can be followed by steps that meet all conditions, acknowledge and save its commit, and lose it |
| `SnapshotFaults.AResetIsDisturbed` | src/d1/mod.rs:889-904 | such a run, with no other step that breaks a condition |
| `SnapshotFaults.WithoutTheFence` | src/d1/archive.rs:320-362 | a run with one record that is not fenced, and no other step that breaks a condition, loses a saved commit |
| `SnapshotFaults.AnOldFileCanLose` | src/d1/mod.rs:840-852 | every start with a file that lacks a commit stored as saved, or about to be, can be followed by steps that meet all conditions and lose it |
| `SnapshotFaults.AnOldFileLosesACommit` | src/d1/mod.rs:840-852 | such a run, with no other step that breaks a condition |
| `SnapshotFaults.LostExactly` | src/d1/mod.rs:812-910 | after a run of sound steps, a fenced step can be followed by sound steps to a lost commit if and only if it is not sound |
| `SnapshotFaults.BrokenExactly` | src/d1/mod.rs:812-910 | after a run of safe steps, a fenced step can be followed by safe steps to a lost commit, or to a newest runner whose file does not begin with the newest snapshot, if and only if it is not safe |
| `SnapshotLinks.MakingRoomIsAnEviction` | src/d1/mod.rs:615-633 | making room is the eviction step for its victim, and no step for the others |
| `SnapshotLinks.ClosingIdleIsAnEviction` | src/d1/mod.rs:741-755 | so is closing the idle entries |
| `SnapshotLinks.OpenIsACall` | src/d1/mod.rs:608-646 | the entry the service hands out is that of a call step |
| `SnapshotLinks.SaveIsARecord` | src/d1/archive.rs:104-150 | what a save does to the contents of the rows is a record step, answered, unanswered or not applied, and then forget steps; applied in the latest epoch only |
| `SnapshotLinks.ArchiveStepsAreSteps` | src/d1/archive.rs:104-150 | each request of the archive under many runners is, for each database, a record of the latest epoch, a forget that spares the newest row unless the database is removed, or nothing |
| `SnapshotLinks.FetchIsARestore` | src/d1/archive.rs:153-177 | a fetch gives what a restore step puts in the file |
| `CodeCaches.CodeCache.Get` | src/code_cache.rs:39-41 | answers if and only if the key is there; its entry comes first, the others keep their order |
| `CodeCaches.CodeCache.Put` | src/code_cache.rs:43-69 | a blob over the budget changes nothing; else the blob is first, and the survivors are the longest most recently used prefix that fits both bounds, with `bytes` their sum |
| `CodeCaches.CodeCache.MakeRoom` | src/code_cache.rs:56-61 | the replaced or least recently used entry goes, with its bytes |
| `CodeCaches.CodeCache.Evict` | src/code_cache.rs:63-68 | drops from the least recently used end until the bytes fit, and no further |
| `CodeCaches.LongestFitIsUnique` | src/code_cache.rs:43-69 | the survivors are determined |
| `CodeCaches.OthersAndOne` | src/code_cache.rs:43-69 | removing an entry removes its bytes and keeps the order of the rest |
| `SocketRuns.ClientReceivesAPrefix` | src/durable/sockets.rs:277-401 | the client gets a prefix of what was sent, in order, then at most one close of the runner, 1008 or 1013; only the last thing is a close (section 5.5.1 of RFC 6455) |
| `SocketRuns.NothingAfterAClose` | src/durable/sockets.rs:277-401 | after a close the client receives nothing |
| `SocketRuns.ListedSocketHasItsTask` | src/durable/sockets.rs:73-116 | a listed socket has a task that did not end and holds its slot; the slot is held exactly that long |
| `SocketRuns.WaitingIsBounded` | src/durable/sockets.rs:290-322 | what waits for a client that is not there yet is counted exactly, and is 8 MiB at most |
| `SocketRuns.SentIsOffered` | src/durable/sockets.rs:138-152 | what counts as sent is exactly what was offered while the socket was listed |
| `SocketRuns.UnlistedExactly` | src/durable/sockets.rs:189-248 | a listed socket is unlisted exactly if a close is sent to it or its task leaves |
| `SocketRuns.NothingIsSkipped` | src/durable/sockets.rs:277-401 | until its task leaves, everything sent is with the client, in hand or queued, in this order |
| `SocketRuns.LeavesWithEverything` | src/durable/sockets.rs:277-401 | a task that leaves while it sends, or as nothing more comes, has sent everything; one that waits for its client leaves exactly if more than 8 MiB wait |
| `SocketRuns.LeavesExactly` | src/durable/sockets.rs:277-401 | when a task leaves: if and only if its client does not come, or sends its last message, too much or what the object does not take, or too much waits, or a close goes out, or nothing can come any more |
| `SocketRuns.ClientIsDismissed` | src/durable/sockets.rs:340-401 | a task leaves over a message of the client exactly if it is the last or the object does not take it, and then closes with 1013; a client that sends too much gets 1008 |
| `WorkerLimiters.Limiters.Get` | src/worker_pool.rs:339-356 | the whole new map: pruned if due, then with the semaphore of the worker, which is the answer |
| `WorkerLimiters.OneSemaphorePerWorker` | src/worker_pool.rs:339-356 | references are to one semaphore if and only if they are of one worker, and it is the one of the map |
| `WorkerLimiters.PermitsWithinLimit` | src/worker_pool.rs:339-356 | a worker never has more permits out than its limit, in spite of the prunes |
| `WorkerLimiters.MapStaysSmall` | src/worker_pool.rs:344-349 | the map is no larger than 1024 or twice what the last prune kept |
| `WorkerLimiters.PruneKeepsTheUsed` | src/worker_pool.rs:344-349 | a request takes other semaphores out of the map only in a prune that is due, and then exactly those nothing refers to |
| `CronRuns.RecordedOnceInOrder` | src/scheduler.rs:82-148 | the recorded times of a cron strictly increase, each after the clock of every claim before it: one event per catch-up |
| `CronRuns.ClaimRecordsExactly` | src/scheduler.rs:98-135 | a claim records the time it selected and moves the cron to the next one after its clock, if and only if its transaction commits and the cron still has that time, has a next one and is not deleted |
| `CronRuns.MovesByRecording` | src/scheduler.rs:98-135 | every step that moves the cron records the time it had, no other step records, and only a claim without a next time stops it |
| `CronRuns.EveryTimeIsRecorded` | src/scheduler.rs:82-148 | every time the cron ever had is recorded, or it has it still, or was stopped at it |
| `CronRuns.DeletedForGood` | src/scheduler.rs:82-116 | once deleted, a cron is not selected and records nothing |
| `CallDepths.Depths.Deepest` | src/durable/mod.rs:38-41 | the maximum of the depths, zero if there is none |
| `CallDepths.DeepestIsUnique` | src/durable/mod.rs:38-41 | the answer is determined by the multiset of depths |
| `CallDepths.Depths.Enter` | src/durable/mod.rs:43-50 | the multiset of depths gains one |
| `CallDepths.Depths.Exit` | src/durable/mod.rs:58-68 | the multiset of depths loses one |
| `CallDepths.SwapRemove` | src/durable/mod.rs:58-68 | a swap-remove takes exactly that element out of the multiset |
| `CallDepths.CallsGoDeeper` | src/ops.rs:275-282 | a call made while its caller is unanswered is strictly deeper than it, each task of an object counting its own events |
| `CallDepths.CallIsOneDeeper` | src/ops.rs:275-282 | a call is one hop deeper than the deepest unanswered event of the task that makes it, and sixteen deep at most |
| `CallDepths.DepthsFollow` | src/durable/mod.rs:43-68 | the depths of a task are those of its unanswered events: each adds its own, its answer takes exactly that, and other tasks keep theirs |
| `CallDepths.RefusedExactly` | src/ops.rs:868-873 | a call is taken if and only if no unanswered event of its task is sixteen deep |
| `CallDepths.ChainsAreBounded` | src/ops.rs:868-873 | a chain of such calls has sixteen hops at most |

## Left out

Assumptions of the theorems:

- RegistryRuns.OldAndNewNeverOverlap: a task that waits for its predecessor is not killed there, since all it does is await a channel; loading and serving can fail at any point.
- AlarmRuns.CoveredExactly: the namespace is live, and the clock does not go back. A deleted namespace drops its alarms on purpose. Only a set and a clear change the alarm of the file; a restore of a snapshot, which changes it too, is not a step. One object at a time, since file, row and lock are per object.
- AlarmRuns.FileAlarmIsIndexed: excludes the runs in which a set races an early delivery, where it can fail.
- AlarmSets.SetsAreServed: excludes the runs in which a set clashes with a delivery, where it can fail.
- AlarmMarks.AlarmIsServed: excludes the runs in which a set races an early delivery, and the runs in which a mark is left behind, where it can fail.
- AlarmDeliveries.DeliveriesExclude: excludes the runs in which a mark goes from under a delivery, where it can fail.
- AlarmRetries.SevenFailuresAtMost: for runs in which the writes that settle and clear are answered, since a clear that is not answered keeps the alarm on purpose, and in which no runner starts while a delivery is under way. Crashes and restarts after them are included.
- AlarmRetries.FailedRunsBackOff: under the same conditions.
- ResolveRuns.HitsAreFresh: where the database resolves a key to a worker of no project, it does so for every path.
- Archives.Archive.Save: the stamp of a save is newer than the stamps of its database, as a growing clock gives; `keep` is at least one. It is about a save that nobody interrupts; `ArchiveRuns` has the others.
- ArchiveRuns.EveryRowHasItsObject: two saves of one database and epoch have different stamps, and a row is newer than those it joins.
- SnapshotRuns.SavedIsHeld: excludes the runs with a step that is not sound, after which a saved commit can be lost. No caller is cancelled, the runners have an archive, the index applies an insert in one step, and a restore of a file is one step.
- SnapshotRuns.PrefixDurability: excludes the runs with a step that is not safe, in the same way.
- SnapshotRuns.UnsavedCommitKeepsItsEntry: under the same conditions, and within the life of a runner, since the counts are in memory.
- CronRuns.RecordedOnceInOrder: a pattern answers times after the one it is given, and nobody rewrites the cron.

Weaker than the source:

- D1Service.Service.Open: states no bound on open connections, because the source has none: an entry that was kept reopens unchecked.
- CallDepths.ChainsAreBounded: about calls whose caller is still unanswered; a call made after its answer starts from the depths that are left.

Not modelled:

- The V8 and wasm engines and `DurableObject::serve`: serving is taking events from the mailbox in order.
- SQLite, Postgres, S3, zstd and SHA-256: histories, rows, maps, and an uninterpreted digest.
- UUID parsing: a namespace comes with its canonical text, or without one.
- The second map of the resolution cache, of worker metadata: the same protocol, with a simpler key.
- The deletion of the files of a database or of a namespace; that of its snapshots is in `ArchiveRuns`.
- `Usage` and `scan` of D1, the disk check, `max_queue`, and the queue of a database: counters beside the protocol.
- `PermitSlot::trade`, `TaskPermit::drop` and draining of the worker pool: one permit is exchanged for another, and a flag is waited for.
- Attachments and hibernation of sockets, and the reuse of a socket id.
- The batch loop of `claim_due` over several crons, and cron parsing.
- That something happens eventually: all results are safety.
- HTTP, TLS, ingress, metrics, logs, signing, KV, fetch, and address checks.
