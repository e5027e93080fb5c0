# A verified model of the kdb+ backend datasource

The repository is a Grafana datasource for kdb+. This project models the parts of it that keep
state, run concurrently, or exist in a fast and a slow version, and proves what they promise.

| file | part of the system |
|---|---|
| `SyncPool.dfy` | the connection pool's shared fields and the code that updates them |
| `PoolProtocol.dfy`, `PoolInvariant.dfy`, `PoolTheorems.dfy`, `PoolReuse.dfy` | the pool as a concurrent protocol of callers, reader goroutines, one closer and FIFO servers |
| `RefId.dfy`, `MemoryCache.dfy`, `DiskCache.dfy`, `CacheRuns.dfy`, `CacheAccess.dfy`, `CacheRegression.dfy`, `Refreshes.dfy`, `Herd.dfy` | the two-tier query cache: renaming, lookups, eviction, disk budget, all runs of both tiers, what counts as an access, newer entries replaced by older ones, background refreshes, herd suppression |
| `AsyncJob.dfy`, `LegacyAsync.dfy`, `HelperAsync.dfy`, `PluginAsync.dfy`, `AsyncTheorems.dfy`, `AsyncSlots.dfy` | asynchronous jobs, streamed and awaited, and the slots that bound them |
| `JobOutcomes.dfy`, `LegacyOutcomes.dfy`, `HelperOutcomes.dfy`, `PluginOutcomes.dfy` | what the two watchers of a job are shown, read off what the gateway answered |
| `ColumnTypes.dfy`, `DictRows.dfy`, `DictCells.dfy`, `FieldNames.dfy` | lists of kdb+ dictionaries as typed columns, and the field names of keyed tables |
| `StreamWindow.dfy`, `StreamRows.dfy`, `StreamDisorder.dfy`, `AsyncSessions.dfy` | the browser side: the window of a stream, also of times that go back, and the map of sessions |
| `ExcelSheets.dfy`, `ExcelReport.dfy`, `ExcelCells.dfy`, `ExcelBooks.dfy`, `ExcelWriter.dfy` | Excel reports: validation, layout, which cell is where, what a sheet is to the writer and to the workbook, the writer itself |
| `Panopticon.dfy`, `PanopticonMacros.dfy`, `PanopticonTexts.dfy`, `PanopticonExamples.dfy` | macro expansion and query wrappers, and what the texts of macros do to both |
| `Wrappers.dfy`, `Sequences.dfy`, `Text.dfy` | shared definitions |

Time is an integer and a nondecreasing clock. Every mutex section, channel operation, dial, close,
read and write is one atomic step; anything may happen between two steps of one thread, and
`select` is a free choice. kdb+, the gateway, the disk, the clock and the workbook library may do
anything; what they do is a parameter. Code that updates fields or runs loops is a method of a
class, proved against a function of the old state; runs and interleavings are then studied on
those functions.

Some plausible claims are false of the code. Each of these has a concrete run or input that shows
it, and a theorem that says exactly when the claim holds:

- An answer in memory is never replaced by an older one (`CacheRegression`): a promotion from disk
  does it, exactly when a newer answer came into memory since its lookup missed.
- One refresh of a key runs at a time (`Refreshes`): exactly when the key is not cleared while one
  runs.
- A caller that joined another's query gets frames named for itself (`RefId`): exactly when the
  frames have names of their own or the refIDs are equal.
- Frames served from the cache are named as parsing would name them (`RefId`): exactly when no group
  is named like a refID that the frames were held under.
- The two row parsers agree (`DictRows`): exactly unless all rows have the same keys and these
  repeat one.
- The fields of a keyed table have different names (`FieldNames`): exactly when no name given to a
  repeated field was there before.
- Rows kept batch by batch are the window of everything streamed (`StreamDisorder`): with times
  that go back, after a given batch exactly when the rows dropped before it are none that its window
  needs.
- A sheet has one stream, and is not streamed and written normally (`ExcelReport`, `ExcelBooks`):
  exactly when the bindings spell it one way, and give it one mode.
- The wrapped query takes the place of the placeholder (`PanopticonTexts`): exactly when no macro
  before it stands for a text with a placeholder.
- A macro after a dollar sign is expanded wherever it is (`PanopticonMacros`): exactly when it is not
  inside the layout of a formatted macro.
- A formatted macro is expanded once (`PanopticonTexts`): exactly when the rendered time has no
  macro in it.

## Model

| member | source | states |
|---|---|---|
| SyncPool.ConnectionPool.EnsurePool | pkg/plugin/kdbSyncPool.go:39-58 | the pool is created once, with the configured size, and never after the closed flag |
| SyncPool.ConnectionPool.PollIdle | pkg/plugin/kdbSyncPool.go:78-88 | the non-blocking receive takes the oldest idle connection, or changes nothing |
| SyncPool.ConnectionPool.ActivateConnection | pkg/plugin/kdbSyncPool.go:201-215 | an open pool registers the connection; a closed one closes it and frees its slot in the same section |
| SyncPool.ConnectionPool.ReleaseConnection | pkg/plugin/kdbSyncPool.go:115-138 | the connection is put back behind the idle ones, or, on a closed or full pool, closed and its slot freed |
| SyncPool.ConnectionPool.DiscardConnection | pkg/plugin/kdbSyncPool.go:140-150 | the connection is unregistered, closed, and its slot freed |
| SyncPool.ConnectionPool.ReleaseSlot | pkg/plugin/kdbSyncPool.go:217-232 | one slot is given back, none when there is none |
| SyncPool.ConnectionPool.ClosePool | pkg/plugin/kdbSyncPool.go:152-186 | active and idle connections are all closed and one slot is freed for each idle one; a second close does nothing |
| SyncPool.DrainedShape | pkg/plugin/kdbSyncPool.go:175-185 | draining n idle connections removes the n oldest and n slots and nothing else |
| PoolInvariant.KeepsInv | pkg/plugin/kdbSyncPool.go:60-232 | every step of every thread keeps the protocol's invariant: slots accounted for, single owners, active set exact, readers and wires consistent |
| PoolInvariant.KeepsExclusive | pkg/plugin/kdbSyncPool.go:60-150 | no step gives a connection a second owner |
| PoolInvariant.KeepsAccounted | pkg/plugin/kdbSyncPool.go:100-150 | no step loses a connection that is not closed, and only dialled connections are closed |
| PoolInvariant.KeepsRegistered | pkg/plugin/kdbSyncPool.go:121-165 | the active set of an open pool stays exactly the connections of activated callers, of a closed one empty |
| PoolInvariant.KeepsReadersSound | pkg/plugin/kdbQuery.go:80-101 | a reader goroutine that can still touch its connection is awaited, or the connection was closed by its caller's timeout |
| PoolInvariant.KeepsWiresSound | pkg/plugin/kdbQuery.go:51-69 | what is outstanding on a connection is what its owner's progress implies: nothing if it may be reused |
| PoolInvariant.ReplyIsOwn | pkg/plugin/kdbQuery.go:82-89 | the reply at the head of a wire that a reader can read is the reply to its own query |
| PoolTheorems.SlotsAndConnectionsConserved | pkg/plugin/kdbSyncPool.go:60-150 | in every interleaving slots held = idle connections + callers owning a slot + the closer's, at most max; each live connection has exactly one owner |
| PoolTheorems.FullAndEmptyBranchesUnreachable | pkg/plugin/kdbSyncPool.go:128-137 | a release on an open pool always finds room and whoever gives a slot back finds one |
| PoolTheorems.BlockedMeansAllSlotsAreRunning | pkg/plugin/kdbSyncPool.go:90-111 | an acquirer that can only wait for its timer faces max slot owners, each of which can move by itself |
| PoolTheorems.SlotsAreHeldBriefly | pkg/plugin/kdbSyncPool.go:60-150 | whatever the others do, a slot owner gives its slot up within eight steps of its own |
| PoolTheorems.NothingEntersAClosedPool | pkg/plugin/kdbSyncPool.go:158-165 | after the flag no connection becomes active and the idle channel only loses its oldest members |
| PoolTheorems.NothingSurvivesClose | pkg/plugin/kdbSyncPool.go:152-186 | when closer and users have finished, the pool is empty, no slot is held, and every connection ever dialled was closed |
| PoolTheorems.NothingLeaksWhileOpen | pkg/plugin/kdbSyncPool.go:60-150 | on an open pool at rest the slots are the idle connections and these are exactly the live ones |
| PoolTheorems.RepliesReachTheirOwnCallers | pkg/plugin/kdbQuery.go:51-101 | over all runs with errors, timeouts and late readers, a delivered reply is the reply to the caller's own query |
| PoolTheorems.IdleConnectionsAreClean | pkg/plugin/kdbSyncPool.go:115-138 | an idle connection has nothing outstanding and, while the pool is open, is not closed and nobody is still reading from it |
| PoolReuse.AnsweredConnectionsGoBack | pkg/plugin/kdbQuery.go:51-57 | in every run: a caller whose reader has a reply is delivered its own reply without touching the pool, and, whatever the others do then, as long as the pool is open its next own step appends the connection, not closed, to the idle channel and lets the caller go |
| PoolReuse.UnansweredConnectionsAreClosed | pkg/plugin/kdbQuery.go:58-101 | in every interleaving: a caller whose reader failed or whose time is over has closed its connection by the time it is out, and nobody has that connection again |
| PoolReuse.OnlyFailedQueriesCostConnections | pkg/plugin/kdbQuery.go:51-101 | over every run, while the pool is open, each closed connection had a query whose caller gave up without a reply |
| PoolReuse.PoolHasTheConfiguredSize | pkg/plugin/kdbSyncPool.go:50-54 | over every run the pool has the size that its first caller configured, and never more slots are held |
| RefId.CloneFramesForRefID | pkg/plugin/kdbSyncCache.go:1131-1153 | copies in order, with the refID set and the name changed exactly when it is the stored refID; an empty refID changes nothing |
| RefId.NoRefIdNoRenaming | pkg/plugin/kdbSyncCache.go:1131-1153 | a lookup without a refID gets the frames as stored |
| RefId.ServedByWalking | pkg/plugin/kdbSyncCache.go:1131-1153 | along any chain of stores and lookups a frame keeps its body, carries the last refID, and its name follows the chain |
| RefId.WalkEndsAt | pkg/plugin/kdbSyncCache.go:1144-1149 | a name is caught by the first refID it equals and is the last refID from then on |
| RefId.RenamingCommutesWithParsing | pkg/plugin/plugin.go:759-829 | for named requests, what is served at the end of a chain is what parsing under the last refID gives if and only if no group is named like a refID the frames were stored under |
| RefId.GroupNameIsLost | pkg/plugin/kdbSyncCache.go:1144-1149 | a concrete grouped response whose group is named like the refID it was stored under and is renamed |
| RefId.CoalescedNamesExactly | pkg/plugin/kdbSyncCache.go:303-307 | a caller that joined a query gets its own frames if and only if the frames have names of their own or both refIDs are equal |
| RefId.CoalescedNameIsLost | pkg/plugin/kdbSyncCache.go:303-307 | concrete refIDs for which the joined caller keeps the leader's frame name |
| MemoryCache.ExpiredMeansRefused | pkg/plugin/kdbSyncCache.go:530-535 | the age test of clearing and that of lookups agree for every policy with a non-negative stale time, and differ for a negative one |
| MemoryCache.ClearExpiredRemovesTheRefused | pkg/plugin/kdbSyncCache.go:580-593 | clearing removes exactly the entries that a lookup at that instant would refuse and changes no other |
| MemoryCache.NewestSurvives | pkg/plugin/kdbSyncCache.go:554-569 | a stored key whose access time is strictly newest survives its own eviction, unchanged |
| MemoryCache.NothingEvictedWithinLimit | pkg/plugin/kdbSyncCache.go:627-641 | a cache within its limit is left as it is |
| MemoryCache.Cache.Get | pkg/plugin/kdbSyncCache.go:521-548 | a hit is the entry's frames renamed, its age and freshness; a refused entry is deleted, a served one only touched |
| MemoryCache.Cache.PutWithCreatedAt | pkg/plugin/kdbSyncCache.go:554-569 | the entry has the given creation time (the clock's for a zero time) and an access time read under the lock, and eviction follows |
| MemoryCache.Cache.EvictLocked | pkg/plugin/kdbSyncCache.go:627-641 | at most maxEntries remain, as many as fit, unchanged, none accessed before an evicted one |
| MemoryCache.Cache.OldestKey | pkg/plugin/kdbSyncCache.go:629-638 | the scan ends with a key of least access time, whatever the map order |
| MemoryCache.Cache.ClearKey | pkg/plugin/kdbSyncCache.go:571-578 | the key is gone from the entries and from the refreshing set, and the answer says whether it was there |
| MemoryCache.Cache.ClearExpired | pkg/plugin/kdbSyncCache.go:580-593 | exactly the entries past ttl + stale ttl are removed, and counted |
| MemoryCache.Cache.ClearCount | pkg/plugin/kdbSyncCache.go:599-606 | everything is removed, and counted |
| MemoryCache.Cache.StartRefresh | pkg/plugin/kdbSyncCache.go:608-619 | a refresh starts exactly when none of that key is marked |
| MemoryCache.Cache.FinishRefresh | pkg/plugin/kdbSyncCache.go:621-625 | the mark is removed |
| DiskCache.LeftNext | pkg/plugin/kdbSyncCache.go:903-913 | one more attempt changes count and bytes by that file exactly when it can be removed |
| DiskCache.SurvivorsAreLongestFittingSuffix | pkg/plugin/kdbSyncCache.go:890-915 | when every removal succeeds the survivors are the longest suffix, in modification-time order, that meets both limits |
| DiskCache.NewestFileSurvives | pkg/plugin/kdbSyncCache.go:890-915 | the newest file survives whenever it fits on its own |
| DiskCache.BudgetIsFilled | pkg/plugin/kdbSyncCache.go:890-915 | when every removal succeeds both limits hold, inclusively, and with one file more one of them would not |
| DiskCache.BudgetHoldsOrOnlyStuckFilesRemain | pkg/plugin/kdbSyncCache.go:890-915 | whatever removals fail, afterwards both limits hold or only files that cannot be removed are left |
| DiskCache.LeftIsListing | pkg/plugin/kdbSyncCache.go:903-913 | what enforcement counts is exactly what is in the directory |
| DiskCache.OrderExists | pkg/plugin/kdbSyncCache.go:899-901 | the listing can be put in modification-time order |
| DiskCache.Cache.Get | pkg/plugin/kdbSyncCache.go:674-707 | a hit is the file's frames renamed, with its age and freshness, and touches the file; an unreadable file is an error, and it or a refused file is removed if it can be |
| DiskCache.Cache.RemoveKey | pkg/plugin/kdbSyncCache.go:875-888 | the file is gone unless it cannot be removed |
| DiskCache.Cache.Put | pkg/plugin/kdbSyncCache.go:709-745 | a failed write changes nothing; a successful one replaces the key's file and enforces the budget, or is an error with the file stored when the directory cannot be listed |
| DiskCache.Cache.EnforceLimits | pkg/plugin/kdbSyncCache.go:890-915 | files are tried oldest first, each only while a limit is exceeded, until both limits hold or all were tried; a failed removal keeps its file in the count |
| DiskCache.Cache.ListByModTime | pkg/plugin/kdbSyncCache.go:891-901 | every file once, in modification-time order, ties in any order |
| DiskCache.Cache.ListFiles | pkg/plugin/kdbSyncCache.go:917-943 | every file of the directory once |
| DiskCache.Cache.SumSizes | pkg/plugin/kdbSyncCache.go:895-898 | the bytes of all listed files |
| DiskCache.Cache.ClearExpired | pkg/plugin/kdbSyncCache.go:770-795 | exactly the removable files that are unreadable or past ttl + stale ttl are removed, and counted; nothing when the directory cannot be listed |
| DiskCache.ClearableMeansUnserved | pkg/plugin/kdbSyncCache.go:770-795 | a file is cleared exactly when a lookup at that instant would not serve it |
| CacheRuns.KeepsMemory | pkg/plugin/kdbSyncCache.go:521-606 | every step keeps: each memory entry was stored, then, by a fetch for its key, and has the frames of that answer renamed along the refIDs it was held under |
| CacheRuns.KeepsDisk | pkg/plugin/kdbSyncCache.go:674-795 | every step keeps the same for each readable file |
| CacheRuns.KeepsSearches | pkg/plugin/kdbSyncCache.go:197-219 | every step keeps the same for each lookup whose disk hit is on its way into memory |
| CacheRuns.KeepsFlights | pkg/plugin/kdbSyncCache.go:234-265 | every step keeps: the creation time that a caller inside the key's flight has read is the latest of that key until it is used |
| CacheRuns.KeepsInv | pkg/plugin/kdbSyncCache.go:169-345 | every step of every caller keeps all of this |
| CacheRuns.RunKeepsInv | pkg/plugin/kdbSyncCache.go:169-345 | so does every run of fetches, stores, lookups, promotions, evictions and clearings |
| CacheRuns.MemoryServesStoredAnswers | pkg/plugin/kdbSyncCache.go:521-548 | in every run a memory hit is the answer to a fetch for that key, with its age from that store, at most ttl + stale ttl, stale exactly past ttl, renamed along the one or two refIDs it was held under, and, for named requests, what parsing for the requester gives if and only if no group is named like one of these |
| CacheRuns.DiskServesStoredAnswers | pkg/plugin/kdbSyncCache.go:674-707 | the same for a disk hit, whose store was a disk store and which was held under the refID of its own query |
| CacheRuns.PromotionKeepsAge | pkg/plugin/kdbSyncCache.go:219 | a promoted entry has the creation time of a disk store of its key; promotion never resets age |
| CacheRuns.MemoryStaysWithinLimit | pkg/plugin/kdbSyncCache.go:554-641 | over every run memory holds at most maxEntries entries |
| CacheAccess.ServedExactly | pkg/plugin/kdbSyncCache.go:521-548 | memory serves exactly what it has and what is no older than ttl, or ttl + stale ttl where there is one, both inclusive |
| CacheAccess.DiskServesExactly | pkg/plugin/kdbSyncCache.go:674-707 | so does the disk, of the files it can read |
| CacheAccess.HitsTouch | pkg/plugin/kdbSyncCache.go:539 | in every run a hit gives its key the time of the lookup as access time and changes nothing else |
| CacheAccess.ServedKeysSurviveTheNextPut | pkg/plugin/kdbSyncCache.go:521-641 | in every run: a key that memory serves later than every other access survives the next put of another key into a cache of at least two entries, unchanged but for the access time, under every order of eviction |
| CacheAccess.PutKeysSurvive | pkg/plugin/kdbSyncCache.go:554-569 | a key put later than every other access survives its own put, with the given creation time and refID |
| CacheAccess.UnservedGoesFirst | pkg/plugin/kdbSyncCache.go:627-641 | concretely: of two keys in a cache for two, the one that was served stays when a third is put |
| CacheAccess.DiskHitsTouch | pkg/plugin/kdbSyncCache.go:696-698 | a disk hit gives its file the time of the lookup and changes nothing else |
| CacheAccess.ServedFilesSurviveTheNextPut | pkg/plugin/kdbSyncCache.go:674-745 | a file served later than every other was written or served survives the put of another one, when files can be removed and the two fit into the budget |
| CacheRegression.OnlyPromotionsMakeOlder | pkg/plugin/kdbSyncCache.go:214-272 | in every reachable state, any step makes a key's memory entry older if and only if it promotes, for that key, a disk hit older than the entry, and eviction keeps it |
| CacheRegression.FetchedIsNewest | pkg/plugin/kdbSyncCache.go:234-253 | a fetched answer about to be stored is never older than the entry it replaces, since a key's stores happen one at a time inside its flight |
| CacheRegression.EntryCameIn | pkg/plugin/kdbSyncCache.go:550-569 | an entry of some creation time is in memory after a run exactly if the run wrote it and then left it, or it was there and was left alone |
| CacheRegression.MakesOlderExactlyIfNewerCameIn | pkg/plugin/kdbSyncCache.go:197-219 | the promotion of a lookup that missed memory replaces a newer entry if and only if a newer answer of that key came into memory, and stayed, between the miss and the promotion |
| CacheRegression.NewerEntryIsReplacedByAnOlderOne | pkg/plugin/kdbSyncCache.go:214-219 | a concrete run in which a lookup reads an old file, a later fetch stores a newer answer, and the promotion then puts the old one back |
| Refreshes.OneAtATimeExactly | pkg/plugin/kdbSyncCache.go:571-625 | over every run of starts, finishes and clearings: at most one refresh of a key runs, and none is startable while one does, if and only if the key is never cleared while one runs |
| Refreshes.StartableMeansTwo | pkg/plugin/kdbSyncCache.go:608-619 | while a refresh runs, a second one can be started exactly if the mark is gone, and then both run |
| Refreshes.TwoAtOnce | pkg/plugin/kdbSyncCache.go:571-625 | a concrete run: cleared while a refresh runs, the key is refreshed twice at once, and the first to finish removes the mark of the other |
| Herd.KeepsExclusive | pkg/plugin/kdbSyncCache.go:234-272 | at most one caller is inside the key's flight |
| Herd.KeepsFresh | pkg/plugin/kdbSyncCache.go:197-237 | as long as a stored answer is within its time to live and not dropped by eviction or clearing, memory has it or a newer one |
| Herd.KeepsDue | pkg/plugin/kdbSyncCache.go:234-247 | a caller past the second lookup proves every stored answer that was not dropped too old, until it has fetched |
| Herd.KeepsLog | pkg/plugin/kdbSyncCache.go:248-272 | fetches and stores happen in the order of their times, and suppressed |
| Herd.RunKeepsInv | pkg/plugin/kdbSyncCache.go:197-272 | all of this in every interleaving of any number of callers, evictions and clearings |
| Herd.FetchesAreSuppressed | pkg/plugin/kdbSyncCache.go:197-272 | after an answer is stored, and unless eviction or clearing drops it, the next fetch begins only once the clock is past its creation time + ttl |
| Herd.FetchesAreSpaced | pkg/plugin/kdbSyncCache.go:197-272 | two fetches with a stored answer between them that is not dropped begin more than a ttl apart |
| Herd.OneFetchAtATime | pkg/plugin/kdbSyncCache.go:234-272 | however many callers, and whatever the policy, at most one queries kdb+ |
| Herd.NobodyFetchesWhatIsFresh | pkg/plugin/kdbSyncCache.go:197-247 | while a stored answer is fresh and not dropped, memory serves it and nobody is fetching |
| AsyncJob.StreamSender.SendEnding | pkg/plugin/kdbLegacyAsync.go:479-488 | data frames then the terminal control, up to the first lost frame; only a finished job reports the loss |
| AsyncJob.StreamSender.FollowJob | pkg/plugin/kdbStream.go:230-325 | the poll loop sends the run's statuses and ending, or all up to the first lost frame, and cancels as the run says |
| AsyncJob.WaitResponse.Record | pkg/plugin/kdbAsyncResource.go:263-280 | an event is appended, and the response shows its job id and state |
| AsyncJob.WaitResponse.Reject | pkg/plugin/kdbAsyncResource.go:282-291 | not ok, with code and error, and a final event |
| AsyncJob.WaitResponse.Finish | pkg/plugin/kdbAsyncResource.go:293-301 | ok, with the frames, no code or error, and a final "done" event |
| AsyncJob.WaitResponse.FollowJob | pkg/plugin/kdbAsyncResource.go:398-480 | the poll loop records the run's statuses and ending |
| AsyncJob.FollowKeepsSeen | pkg/plugin/kdbLegacyAsync.go:401-496 | statuses once reported stay reported, in order |
| AsyncJob.StopsAtLostStatus | pkg/plugin/kdbLegacyAsync.go:489-493 | a lost status frame is the last frame attempted |
| LegacyAsync.StreamStart | pkg/plugin/kdbLegacyAsync.go:322-372 | the streaming driver's first steps: the first one that fails is sent as the terminal error |
| LegacyAsync.StreamCut | pkg/plugin/kdbLegacyAsync.go:387-399 | a context that ended cancels the job and sends "cancelled" or the timeout error |
| LegacyAsync.StreamTurn | pkg/plugin/kdbLegacyAsync.go:401-495 | one turn of the streaming loop sends what the verdict on the event says |
| LegacyAsync.StreamDone | pkg/plugin/kdbLegacyAsync.go:443-488 | a finished job's payload, or else its result, is streamed; every way to miss it is one terminal error |
| LegacyAsync.RunStream | pkg/plugin/kdbLegacyAsync.go:300-497 | for every trace the streaming driver sends the run, or all of it up to the first lost frame, and returns an error exactly for a lost status or result; a slot that it took is given back by the time it returns |
| LegacyAsync.WaitStart | pkg/plugin/kdbAsyncResource.go:497-541 | the waiting driver's first steps: the first one that fails is the response |
| LegacyAsync.WaitCut | pkg/plugin/kdbAsyncResource.go:553-563 | a context that ended cancels the job and rejects |
| LegacyAsync.WaitTurn | pkg/plugin/kdbAsyncResource.go:565-645 | one turn of the waiting loop records the status and what the verdict says |
| LegacyAsync.WaitDone | pkg/plugin/kdbAsyncResource.go:604-643 | a finished job's payload, or else its result, completes the response; every way to miss it rejects it with its own code |
| LegacyAsync.RunWait | pkg/plugin/kdbAsyncResource.go:482-647 | for every trace the waiting driver's response is the run's, and so are its cancels; a slot that it took is given back by the time it returns |
| HelperAsync.RunStream | pkg/plugin/kdbStream.go:200-325 | a failed connection or submit sends nothing and returns an error; otherwise the run is streamed, and an error is returned exactly for a lost frame or a subscriber that left |
| HelperAsync.RunWait | pkg/plugin/kdbAsyncResource.go:369-480 | for every trace the response is the run's |
| PluginAsync.RunStream | pkg/plugin/kdbStream.go:338-425 | the run of a plugin-managed job is streamed, "running" once per tick; a slot that it took is given back by the time it returns |
| PluginAsync.RunWait | pkg/plugin/kdbAsyncResource.go:303-367 | the response is the run's, "running" once; a slot that it took is given back by the time it returns |
| AsyncSlots.SlotsCountDrivers | pkg/plugin/kdbStream.go:341-346 | in every interleaving of drivers the slots in use are the drivers between acquire and return, at most the limit, and a driver that has returned, on whatever path, gave back exactly what it took, at most one slot |
| AsyncSlots.ReleaseFindsItsToken | pkg/plugin/kdbStream.go:466-471 | a release always finds a token in the channel: its other branch is never taken |
| AsyncSlots.LimitMeansAllSlotsAreHeld | pkg/plugin/kdbStream.go:454-464 | the limit is reported exactly when as many drivers hold a slot as there are slots, and each of these can go on by itself |
| AsyncSlots.NothingHeldAtRest | pkg/plugin/kdbStream.go:454-471 | when every driver has returned, no slot is in use |
| AsyncSlots.SlotUse.Return | pkg/plugin/kdbStream.go:346 | from a refusal, from set-up and from polling a driver comes back to its caller, with the slot given back if it had one |
| AsyncSlots.ReturnedGaveBackWhatItTook | pkg/plugin/kdbStream.go:341-346 | on every path from arrival to return a slot is given back exactly as often as it was taken, at most once |
| AsyncSlots.EveryDriverWalks | pkg/plugin/kdbStream.go:454-471 | in every interleaving each driver goes a path such as the drivers' own code goes |
| AsyncSlots.EveryWalkHappens | pkg/plugin/kdbStream.go:454-464 | and each such path is gone in some interleaving: whatever the other drivers are doing, as long as there is a slot if it takes one, and none if it reports the limit |
| AsyncTheorems.StreamedObservations | pkg/plugin/kdbLegacyAsync.go:375-496 | what a subscriber sees of any run: its statuses, its frames, its one terminal control |
| AsyncTheorems.AwaitedObservations | pkg/plugin/kdbAsyncResource.go:263-301 | what a waiting caller sees of any run: its statuses and the terminal poll, one final event in last place, frames, code and error |
| AsyncTheorems.FollowClosedForm | pkg/plugin/kdbLegacyAsync.go:401-496 | a run is one status for each event read, and the verdict of the next event |
| AsyncTheorems.LegacyDriversAgree | pkg/plugin/kdbAsyncResource.go:482-647 | for every trace in which sends succeed both legacy drivers end in the same state with the same frames, error and progress, and their progress states are equal except for the terminal state that the last poll itself reports |
| AsyncTheorems.LegacyStreamsAreWellShaped | pkg/plugin/kdbLegacyAsync.go:300-497 | progress controls, then data and one "done", or no data and one "error" or "cancelled" |
| AsyncTheorems.LegacyWaitsEndOnce | pkg/plugin/kdbAsyncResource.go:482-647 | exactly one final event, in last place, exactly when the job is over |
| AsyncTheorems.LegacyCancelsOnlyCutJobs | pkg/plugin/kdbLegacyAsync.go:387-399 | the gateway's cancel is called at most once, with the submitted id, only after a successful submit and only for an event that ended the context |
| LegacyOutcomes.TerminalWordsDecide | pkg/plugin/kdbLegacyAsync.go:121-142 | the first polled text whose trimmed lower-case form is a terminal value decides the terminal control and the final event: an error value "error" with the gateway's message, error and progress (and only such a value the code "query-failed"), a cancelled value "cancelled" with the same, a done value the result, fetched and parsed, or why not |
| Text.TrimIs | pkg/plugin/kdbLegacyAsync.go:122 | trimming takes off blanks, all at both ends and nothing else |
| Text.LowerIs | pkg/plugin/kdbLegacyAsync.go:122 | capital letters become small ones, and nothing else changes |
| LegacyOutcomes.PollsAreShown | pkg/plugin/kdbLegacyAsync.go:400-460 | every other poll is shown by both drivers with the gateway's message, error and progress: a queued value as "queued", a running or unmapped value as "running", nothing at all like the word "running" |
| LegacyOutcomes.SubmitIsShown | pkg/plugin/kdbLegacyAsync.go:173-194 | the answer to the submit gives the job's id and is the first status shown; a blank text counts as the word "queued" |
| LegacyOutcomes.OtherEndsAreShown | pkg/plugin/kdbLegacyAsync.go:387-425 | a context that ends shows as "cancelled" for a subscriber that left and as "error" for a timeout, with its text; a failed or empty poll as "error" |
| LegacyOutcomes.SetUpFailuresAreShown | pkg/plugin/kdbLegacyAsync.go:321-366 | the first failing set-up step is what both drivers end with, and nothing is cancelled |
| LegacyOutcomes.NoEndWithoutAReason | pkg/plugin/kdbLegacyAsync.go:380-500 | a job whose gateway never says that it is over has no terminal control and no final event |
| LegacyOutcomes.CutJobsAreCancelled | pkg/plugin/kdbLegacyAsync.go:387-399 | the gateway is asked to cancel a job exactly if its context ended between polls, in a poll or while the result was fetched, and there is a function and an id |
| HelperOutcomes.HelperEndsSo | pkg/plugin/kdbAsyncResource.go:420-476 | the first answer of the helper with a terminal word, or the first event that is no answer, decides how both drivers end |
| HelperOutcomes.HelperStatusesAreShown | pkg/plugin/kdbAsyncResource.go:395-441 | all other answers are shown with the helper's own word in lower case |
| HelperOutcomes.HelperSetUpFailureIsShown | pkg/plugin/kdbAsyncResource.go:374-393 | without a connection, or with a failed submit, the waiting caller is told so |
| HelperOutcomes.HelperCutJobsAreCancelled | pkg/plugin/kdbStream.go:435-452 | the helper is asked to cancel a job exactly if its context ended and it has an id |
| AsyncTheorems.HelperDriversAgreeAfterSubmit | pkg/plugin/kdbStream.go:200-220 | the waiting caller always gets a final event; the subscriber gets a terminal frame exactly when connection and submit succeeded, and then both agree |
| AsyncTheorems.PluginDriversAgree | pkg/plugin/kdbAsyncResource.go:303-367 | plugin-managed jobs end alike for both, with one last word each, in the proper shape |
| AsyncTheorems.PluginWaitStates | pkg/plugin/kdbAsyncResource.go:303-330 | the response says "queued" and "running" once each, as far as the set-up got |
| AsyncTheorems.PluginStreamStates | pkg/plugin/kdbStream.go:338-425 | the stream says "queued" first and "running" ever after |
| PluginOutcomes.PluginEndsSo | pkg/plugin/kdbStream.go:379-425 | the first thing that happens but ticks decides how both drivers end |
| PluginOutcomes.PluginTicksAreShown | pkg/plugin/kdbStream.go:349-425 | "queued" first and "running", half done, for every tick |
| PluginOutcomes.PluginSetUpFailureIsShown | pkg/plugin/kdbStream.go:341-360 | without a slot or a connection that is how both drivers end |
| ColumnTypes.MixedNumericColumn | pkg/plugin/kdbTableParser.go:485-505 | it converts exactly the columns with two or more kinds that are all numeric |
| ColumnTypes.NullableMixedNumericColumn | pkg/plugin/kdbTableParser.go:507-532 | the same over the present values, nils staying nil |
| ColumnTypes.StringInterfaceColumn | pkg/plugin/kdbTableParser.go:657-663 | every value as text, text as it is, nils staying nil (also the nullable variant) |
| ColumnTypes.TypedColumn | pkg/plugin/kdbTableParser.go:561-655 | the eight typed columns: the values as they are if all have the kind, else text |
| ColumnTypes.NullableTypedColumn | pkg/plugin/kdbTableParser.go:449-462 | the present values as they are, exactly if all have the kind |
| ColumnTypes.NullableInterfaceColumn | pkg/plugin/kdbTableParser.go:402-447 | the typer of columns with nils computes the typing that the set of kinds determines |
| ColumnTypes.TypedInterfaceColumn | pkg/plugin/kdbTableParser.go:367-400 | and so does the typer of all columns |
| ColumnTypes.DroppingNilsCommutesWithTyping | pkg/plugin/kdbTableParser.go:367-447 | nullable typing is the pointwise lifting of non-nullable typing: dropping nils before or after gives the same kind and elements |
| ColumnTypes.OrderDoesNotMatter | pkg/plugin/kdbTableParser.go:367-447 | permuting a column changes neither its kind nor what becomes of any cell |
| ColumnTypes.ValuesAreKeptExactly | pkg/plugin/kdbTableParser.go:367-447 | nils stay exactly where they are, and values are kept as they are exactly when they have one common supported kind |
| DictRows.FrameFromColumns | pkg/plugin/kdbTableParser.go:296-303 | one typed field for each name, in order |
| DictRows.ParseUniformRows | pkg/plugin/kdbTableParser.go:261-294 | the columns by position if all rows have the first row's keys; the first bad row's error; or no answer, only if the keys differ |
| DictRows.ParseUnionRows | pkg/plugin/kdbTableParser.go:217-258 | the first bad row's error, or one column for each key in first-seen order, a row's cell being its last of that key |
| DictRows.AddRow | pkg/plugin/kdbTableParser.go:236-244 | new keys are appended once, in order, and the row's map has for every key its last value |
| DictRows.ParseDictList | pkg/plugin/kdbTableParser.go:201-259 | the fast path's frame for rows with equal keys, else the general path's frame or error |
| DictRows.FirstSeenHasNoRepeat | pkg/plugin/kdbTableParser.go:237-241 | first-seen order lists every key once, and is the list itself exactly when nothing repeats |
| DictRows.FastPathAgreesExactly | pkg/plugin/kdbTableParser.go:201-294 | the parser gives what the general path alone would, frame or first error, if and only if it is not the case that all rows have the same keys and these repeat one |
| DictRows.RowsWithoutRepeatsParseAlike | pkg/plugin/kdbTableParser.go:201-294 | for every list whose dictionaries repeat no key the two paths are the same parser |
| DictRows.RepeatedKeySplitsThePaths | pkg/plugin/kdbTableParser.go:261-294 | concrete rows with a repeated key that the paths parse to different frames |
| DictRows.ShapeOfTheFrame | pkg/plugin/kdbTableParser.go:201-303 | columns in first-seen order, each as long as the list, a cell absent exactly where the row lacks the key or its value is nil |
| DictCells.TypedByTheValues | pkg/plugin/kdbTableParser.go:367-559 | a column whose values are all of one of the eight kinds keeps them; numbers of several kinds become float64; in all other columns texts stay and the rest is printed; nils stay nils |
| DictCells.ValuesAreInTheirColumns | pkg/plugin/kdbTableParser.go:201-259 | in the general path the last value of a name in a row is in that name's column, in that row |
| DictCells.ValuesAreAtTheirPositions | pkg/plugin/kdbTableParser.go:261-294 | in the fast path every value is in the column of its position, in its row |
| DictCells.ColumnsByFirstAppearance | pkg/plugin/kdbTableParser.go:201-259 | the columns of the general path are in the order in which their names first appear, row by row and key by key |
| DictCells.FirstErrorIsReported | pkg/plugin/kdbTableParser.go:201-294 | the list fails exactly if it is empty or a row is no dictionary, has unreadable keys or values, or as many of the one as not of the other; the error is that of the first such row |
| FieldNames.MakeFieldNamesUnique | pkg/plugin/kdbTableParser.go:325-335 | in place, fields are counted under the names they came with, and each but the first of a name is given the name with its number |
| FieldNames.GeneratedDiffer | pkg/plugin/kdbTableParser.go:333 | two generated names are never equal, whatever the names they are made of |
| FieldNames.NamesDifferExactly | pkg/plugin/kdbTableParser.go:325-335 | all names are different afterwards if and only if no generated name is one that a field came with |
| FieldNames.UnchangedExactly | pkg/plugin/kdbTableParser.go:329-332 | the names stay as they are if and only if they were all different |
| FieldNames.NumberedTwice | pkg/plugin/kdbTableParser.go:333 | concrete names of which two are equal afterwards |
| FieldNames.NumberedInOrder | pkg/plugin/kdbTableParser.go:333 | concretely: three fields of one name are numbered two and three |
| StreamWindow.RetentionStartIndex | src/datasource.ts:467-492 | the window starts after the rows that are too many and, given a time column and a latest time, at the first row within the retention, whichever is later |
| StreamWindow.FindTimeField | src/datasource.ts:474 | the first field of time type or named "time" |
| StreamWindow.TrimFrame | src/datasource.ts:458-465 | every field keeps its values from the window's start on, in place |
| StreamWindow.SameSchema | src/datasource.ts:494-499 | equal names and types in order |
| StreamWindow.AppendFrame | src/datasource.ts:445-456 | kept values and batch are joined and trimmed, in the batch's frame; another schema starts afresh; the kept frame is not changed |
| StreamWindow.CloneFrame | src/datasource.ts:426-435 | a snapshot is the window at its own size, in new fields |
| StreamWindow.WindowShifts | src/datasource.ts:467-492 | forgetting the rows before a window never moves a later window of at most as many rows |
| StreamWindow.AppendRefines | src/datasource.ts:445-456 | appending to the window of a history gives the window of the longer history |
| StreamWindow.IncrementalIsWindowOfHistory | src/datasource.ts:445-492 | after any number of batches the stored rows are the window of everything streamed since the schema last changed, for times that are defined and never go back (or when there is no retention or no time column) |
| StreamWindow.SnapshotIsWindowOfHistory | src/datasource.ts:422-435 | a snapshot for fewer rows is the window of that whole history at that size |
| StreamWindow.WindowIsBoundedAndKeepsTheLastRow | src/datasource.ts:445-492 | at most maxRows rows, a suffix of the history, the last row always among them |
| StreamWindow.TimesThatGoBackBreakTheWindow | src/datasource.ts:478-490 | concrete batches whose times go back and whose stored rows are not the window of the history |
| StreamRows.RowsAreKeptExactly | src/datasource.ts:458-492 | every column is cut to the same suffix, and a row is in it exactly if it is among the last maxRows and, where age counts, it or a row before it is no older than the retention, inclusively |
| StreamRows.OrderedRowsByThemselves | src/datasource.ts:478-490 | for ordered times exactly if it is itself no older than the retention |
| StreamRows.TimesAreThose | src/datasource.ts:474 | the times are those of the first field of time type or called "time" in whatever case |
| StreamRows.NoTimes | src/datasource.ts:474 | and without such a field there are none |
| StreamRows.HistoryJoins | src/datasource.ts:445-456 | the history that windows are compared with is all batches since the schema last changed, joined in the order in which they came |
| StreamDisorder.WindowShiftsExactly | src/datasource.ts:467-492 | for any times: forgetting the first rows leaves the window where it is if and only if none of them is within retention of the newest row, or the row limit drops everything before the first remaining one that is |
| StreamDisorder.AppendRefinesExactly | src/datasource.ts:445-456 | for any times: appending to the window of a history gives the window of the longer history if and only if that condition holds of the rows dropped so far, without a retention or a time column always |
| StreamDisorder.AlwaysTheWindowExactly | src/datasource.ts:445-492 | for any stream: the stored rows are the window of the history after every batch if and only if the condition holds at every append |
| StreamDisorder.IsWindowExactly | src/datasource.ts:445-492 | for any stream, after any one batch and whatever was the case before: the stored rows are the window of the history if and only if the condition holds of all the rows that were dropped before that batch |
| StreamDisorder.SnapshotIsWindowExactly | src/datasource.ts:422-435 | for any times: a snapshot at any other size is the window of the history at that size if and only if the condition holds for that size |
| AsyncSessions.Sessions.GetOrCreate | src/datasource.ts:398-420 | a known key moves to the end with its session; a new one gets a new session, and at a hundred keys the first is dropped |
| AsyncSessions.HoldsTheMostRecent | src/datasource.ts:398-420 | after any history the map holds exactly the last hundred distinct keys, in recency order |
| AsyncSessions.RecentByLastAccess | src/datasource.ts:400-404 | recency order is the order of last accesses |
| AsyncSessions.PresentExactly | src/datasource.ts:406-411 | a key is there exactly when at most a hundred distinct keys, itself included, were accessed since |
| AsyncSessions.SessionIsFromLatestInsertion | src/datasource.ts:400-420 | a surviving key still has the session made when it was last inserted as new |
| ExcelReport.ValidateReport | pkg/plugin/excelReport.go:494-544 | a report is accepted exactly if its limits, mode, template and bindings are in order and no sheet has two modes |
| ExcelReport.ValidateBindings | pkg/plugin/excelReport.go:512-543 | all bindings are acceptable and bindings of one sheet, regardless of case and surrounding blanks, have one mode |
| ExcelReport.ValidateCatalog | pkg/plugin/excelReport.go:483-546 | every report is accepted and no two ids are equal |
| ExcelReport.EveryRunIsSound | pkg/plugin/excelReport.go:1234-1256 | over any list of bindings the streamed rows of every sheet ascend and no sheet name, as spelled, is both streamed and written normally |
| ExcelReport.FailureIsFinal | pkg/plugin/excelReport.go:694-710 | the first failing binding is the report's failure |
| ExcelReport.AcceptedReportsNeverMixModes | pkg/plugin/excelReport.go:538-543 | whatever the queries return, the run of an accepted report never fails for mixed modes |
| ExcelBooks.SheetsApartExactly | pkg/plugin/excelReport.go:1234-1256 | for any report, validated or not, that is written: no sheet of the workbook, however spelled, is both streamed and written normally if and only if no streaming and no other binding that had a result are of one sheet |
| ExcelBooks.AcceptedReportsKeepSheetsApart | pkg/plugin/excelReport.go:538-543 | when an accepted report is written, no sheet of the workbook, however spelled, is both streamed and written normally |
| ExcelBooks.OneSheetInBothBooks | pkg/plugin/excelReport.go:1234-1256 | a concrete report that validation refuses and the writer would stream and write normally to one sheet |
| ExcelBooks.AcceptedReportsFailOnlySo | pkg/plugin/excelReport.go:694-710 | an accepted report that fails does so at its first binding that cannot be written, for a sheet name the workbook refuses, a clear range without cells, streamed rows that run into each other, or the edge of the sheet, and for nothing else |
| ExcelReport.ModesAgreeOnAnEmptySheet | pkg/plugin/excelReport.go:1114-1166 | one binding on an empty sheet that can be written cell by cell is written to the same cells, with the same statistics, in all three modes |
| ExcelReport.StreamsWriteCellByCellExactly | pkg/plugin/excelReport.go:1138-1165 | what can be streamed to an empty sheet can be written cell by cell exactly when its clear range has cells and its empty values fit |
| ExcelReport.StreamRefusedExactly | pkg/plugin/excelReport.go:1489-1502 | a further binding on a streamed sheet is written exactly when it starts below the last row and fits |
| ExcelReport.OneStreamPerSheetExactly | pkg/plugin/excelReport.go:1234-1248 | no sheet has two streams if and only if the streaming bindings spell every sheet name one way |
| ExcelReport.TwinsStreamTheSameRows | pkg/plugin/excelReport.go:538-543 | a concrete accepted report that streams the same row of one sheet twice |
| ExcelCells.WrittenCells | pkg/plugin/excelReport.go:1522-1560 | after a binding written cell by cell or row by row, each value of each field of each frame is at its place, the i-th of field j of frame k at column col + j and row top(k) + title + i, absent where it is empty or missing, each title in the row above, the clear range empty, and every other cell and sheet as it was |
| ExcelCells.StreamedCells | pkg/plugin/excelReport.go:1422-1462 | the same of a streamed binding on all that was streamed to its sheet |
| ExcelCells.WrittenIfOnTheSheet | pkg/plugin/excelReport.go:1506-1560 | a binding that nothing else is wrong with is written exactly if all positions of its frames are on a sheet of 16384 columns and 1048576 rows |
| ExcelCells.StreamedIsOnTheSheet | pkg/plugin/excelReport.go:1489-1502 | what can be streamed has every value and every title on such a sheet |
| ExcelCells.OnTheSheetStreams | pkg/plugin/excelReport.go:1489-1502 | and frames that are on the sheet can be streamed |
| ExcelCells.StatisticsCount | pkg/plugin/excelReport.go:1422-1462 | the statistics count the rows written, the values in them and the frames with fields |
| ExcelCells.ModesByWord | pkg/plugin/excelReport.go:1272-1287 | a binding's own mode counts unless it is blank, then the report's; the words of the three modes, in whatever case |
| ExcelCells.AcceptedExactly | pkg/plugin/excelReport.go:494-544 | a report is accepted exactly if it has bindings, no negative limit, a known mode, a workbook as template, nothing wrong with any binding, and one mode for each sheet however spelled |
| ExcelSheets.LayoutAscends | pkg/plugin/excelReport.go:1149-1164 | the rows of a binding's frames ascend from its cell on and are as many as the statistics say |
| ExcelSheets.PaintedAt | pkg/plugin/excelReport.go:1504-1533 | every value of every line is read back at its place |
| ExcelSheets.PaintedOnlyThere | pkg/plugin/excelReport.go:1504-1533 | and no other cell is filled |
| ExcelSheets.SetRow | pkg/plugin/excelReport.go:1357-1377 | cell by cell or at once, a row that fits gives the same grid, and one that does not fails |
| ExcelSheets.StreamKeepsAscending | pkg/plugin/excelReport.go:1489-1502 | whatever is streamed, accepted rows ascend |
| ExcelSheets.StreamsExactly | pkg/plugin/excelReport.go:1489-1502 | ascending rows are streamed whole exactly when they start below the last row and fit |
| ExcelSheets.StreamWriter.SetRow | pkg/plugin/excelReport.go:1489-1502 | a row is accepted exactly if it is below the last and fits, and a refused one changes nothing |
| ExcelWriter.LayOutFrame | pkg/plugin/excelReport.go:1427-1456 | titles if wanted, then one line a row, missing values empty, with the statistics |
| ExcelWriter.LayOut | pkg/plugin/excelReport.go:1379-1401 | the cursor loop over the frames: frames without fields are skipped, others set off by an empty row |
| ExcelWriter.ClearCells | pkg/plugin/excelReport.go:1304-1335 | exactly the cells of the range are emptied |
| ExcelWriter.StreamLines | pkg/plugin/excelReport.go:1427-1456 | row by row up to the first that is refused |
| ExcelWriter.WorkbookWriter.StreamFor | pkg/plugin/excelReport.go:1234-1248 | refused for a sheet written normally; else the sheet's one stream, made when first asked for |
| ExcelWriter.WorkbookWriter.MarkNormalSheet | pkg/plugin/excelReport.go:1250-1256 | refused for a streamed sheet, else marked |
| ExcelWriter.WorkbookWriter.WriteStreamed | pkg/plugin/excelReport.go:1379-1401 | the lines are added to the sheet's stream, or the first refused one fails the binding; other streams and all grids stay |
| ExcelWriter.WorkbookWriter.WriteNormally | pkg/plugin/excelReport.go:1141-1165 | the clear range is emptied and the lines painted on the sheet's grid, or the binding fails |
| ExcelWriter.WorkbookWriter.Write | pkg/plugin/excelReport.go:1114-1166 | one binding, with every check in order |
| ExcelWriter.WorkbookWriter.WriteAll | pkg/plugin/excelReport.go:694-710 | all bindings of a report in order, up to the first failure, with the summed statistics |
| Panopticon.LiteralReadsBack | pkg/plugin/panopticon.go:153-156 | a string literal reads back as its value whatever follows: no quote in the value closes it early |
| Panopticon.FinderIsProper | pkg/plugin/panopticon.go:14-94 | no macro token reaches across an opening brace, in either pass |
| Panopticon.ExpandKeepsPlaceholder | pkg/plugin/panopticon.go:36-43 | expanding a wrapper expands what is before and after the placeholder by itself and leaves the placeholder |
| Panopticon.CompiledInParts | pkg/plugin/panopticon.go:24-32 | if the expanded prefix has no placeholder, the compiled text is the expanded prefix, query and suffix, so the query is expanded once |
| Panopticon.CompiledIntoMacroText | pkg/plugin/panopticon.go:29-30 | otherwise the query goes into the macro's text and the wrapper's placeholder stays |
| Panopticon.CompiledInPartsExactly | pkg/plugin/panopticon.go:24-32 | the compiled text is the three parts for every query if and only if the expanded prefix has no placeholder |
| PanopticonMacros.BracedMacroInText | pkg/plugin/panopticon.go:65-88 | each of the 23 macros in braces stands for its value, written out, anywhere in a text; what is before and after it is expanded by itself |
| PanopticonMacros.DollarMacroInText | pkg/plugin/panopticon.go:89-92 | each of the four macros after a dollar sign does so if and only if no formatted macro begins before it and ends after its dollar sign |
| PanopticonMacros.DollarInALayout | pkg/plugin/panopticon.go:14 | a concrete text in which the macro belongs to a layout |
| PanopticonMacros.FormattedMacroRenders | pkg/plugin/panopticon.go:113-122 | "TimeWindowStart", "Start" and "From" render the start of the time range, the other five names its end |
| PanopticonMacros.LongReadsBack | pkg/plugin/panopticon.go:149-151 | a number reads back as what it was made of, sign included |
| PanopticonMacros.WrapperDecides | pkg/plugin/panopticon.go:24-33 | without a wrapper but blanks the text is the expanded query; any other wrapper is refused exactly if it has not one placeholder |
| PanopticonTexts.CompiledInPartsByTexts | pkg/plugin/panopticon.go:24-32 | the same read off the values of the macros: if and only if no macro before the placeholder stands for a text with a placeholder in it |
| PanopticonTexts.ExpandHoldsExactly | pkg/plugin/panopticon.go:36-43 | an expanded text has a placeholder if and only if the text had one or a value put in by one of the two passes has |
| PanopticonTexts.ScanHoldsExactly | pkg/plugin/panopticon.go:36-43 | the same for one pass: no placeholder comes about where a value meets the text around it |
| Panopticon.QueryModel.PrepareForExecution | pkg/plugin/panopticon.go:16-34 | the text becomes the compiled one, a wrapper without exactly one placeholder is an error and changes nothing, the original text is kept once |
| Panopticon.CountPlaceholders | pkg/plugin/panopticon.go:26 | occurrences that do not overlap, from the left |
| PanopticonExamples.UserNamedLikeThePlaceholder | pkg/plugin/panopticon.go:84 | a concrete wrapper and user name for which the query ends up in the name |
| PanopticonTexts.FormattedMacroInText | pkg/plugin/panopticon.go:36-43 | a formatted macro of any name, anywhere in a text, stands for its rendered time in quotes, which is scanned for plain macros by itself; the text before and after is expanded by itself |
| PanopticonTexts.FormattedOnceExactly | pkg/plugin/panopticon.go:96-111 | what it stands for is just the quoted rendered time if and only if no plain macro is at any position of the rendered time |
| PanopticonTexts.ScanLeavesExactly | pkg/plugin/panopticon.go:36-43 | a pass leaves a text as it is if and only if there is no macro at any position of it |
| PanopticonTexts.NothingFoundInLiteral | pkg/plugin/panopticon.go:153-156 | quoting and escaping neither makes nor hides a macro |
| PanopticonExamples.MacroInFormattedTextIsExpanded | pkg/plugin/panopticon.go:36-43 | a time rendered as "$Snapshot" is expanded a second time, for any name and text around it |

## Left out

- Sockets, the kdb+ wire protocol, TLS, dialling, files, JSON and the Grafana SDK are parameters that may fail; a JSON round trip of frames is the identity.
- Nil connections in the idle channel and nil frames in a list of frames: nothing in the repository puts them there.
- The pool's acquire timer and query timers may fire at any moment; durations are not modelled, nor are the `syncQueryRunner` and `kdbHandleListener` loops, which nothing starts any more.
- The cache key, its SHA-256 and the policy's mode normalisation: a key is an opaque string and every lookup may have a policy of its own.
- The cache directory starts empty; files of an earlier process are not part of the runs.
- Herd.FetchesAreSuppressed: one key, one policy that reads and stores with no stale time, and the memory tier alone; refresh goroutines, which exist only with a stale time, are not part of it.
- CacheRuns.RunKeepsInv: a background refresh enters its key's flight like any caller, so its stores are covered; how many refreshes run at once is said in `Refreshes`, on the marks alone.
- AsyncTheorems.LegacyCancelsOnlyCutJobs: a cancel counts when it is attempted; a connection that cannot be made, or a call that fails, is not told apart.
- The contents of the kdb+ decoding tables, date and time conversions, float rounding and `fmt.Sprint`: conversions are symbolic, decoded cells are given.
- Moving the time column to the front.
- Status texts, modes and sheet keys are trimmed and lower-cased for ASCII only.
- HelperAsync.RunStream: unlike the two legacy drivers, the two helper drivers share one reading of the gateway's answers, so a difference between their two copies of it would not show.
- Diagnostics, logging, event timestamps and durations of run-and-wait responses.
- Slots after the datasource is disposed, and the push-stream driver.
- The legacy extraction paths and the request dictionaries: a reply is what the paths find in it.
- StreamWindow.RetentionStartIndex: values are already what `toMillis` makes of them, not-a-number counting as undefined, infinities left out.
- The browser's stream sessions, template variables and live channels.
- ExcelWriter.WorkbookWriter.Write: after a failed binding nothing is said of the workbook, which is thrown away; the lines of a binding are laid out before the first is written, while the source lays out and writes in one loop; the writers of frames submitted by the browser are copies of those modelled.
- The workbook library is reduced to its grid, its size limits and its streams; flushing, active sheets and styles are left out, and so is what it does when one sheet has two streams.
- Row and file size limits of reports, template paths, file names and the download store.
- PanopticonTexts.FormattedOnceExactly: time literals and date layouts are given, the timestamps being texts of digits, points, colons, dashes and the letters D, N and p.
