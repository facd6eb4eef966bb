# Offline engine and MCP command channel: a Dafny model

This project models the concurrent core of the GPX editor's Go backend and of the browser
page it drives, and proves what that core promises:

- **Response cache** - replacing an entry's two files and recovering them after crashes
  (`PairFiles`), reads that race all of it (`PairReads`), the derived indexes and the order
  of expiry and eviction (`CacheIndex`), the store with its admissions, pins and quota
  (`CacheStore`), admission windows and byte budgets (`Admission`), a pack's growth among
  everybody else's work (`PackBudget`), cache-key encoding (`Decimal`).
- **Trip packs** - route bounds across the antimeridian (`RouteBounds`), tile enumeration
  (`TileCover`), job slots and the fair queue (`PackScheduler` as a state machine,
  `PackJobs` as the manager whose critical sections are its steps), tile workers
  (`TileBatches`), a download's record (`PackProgress`), its pins and deletion (`PackPins`,
  `PackCleanup`), and one job as a whole: three concurrent stages over those parts (`PackJob`),
  what every step of it keeps (`PackAccount`, `PackCourse`), what a complete download means in
  every run (`PackCompletion`), and when a job can complete (`PackFullRun`).
- **Outbound client** - the offline switch (`OfflineMode`) and single-flight fetching with
  bounded queues (`Outbound`).
- **Map style** - replacing the generation on disk under pins (`MapGeneration`).
- **Routing graphs** - counted handles that are replaced while queries run
  (`RoutingDatasets`).
- **MCP channel** - the broker (`Broker`), the page (`Page`), both with their event streams
  as one system (`CommandChannel`), and what becomes of commands that come again and of their
  answers (`Redelivery`).

Code that updates objects in place is modelled by classes and methods. Where several
goroutines interleave, each locked section is one method or one step, a method's contract
says which step it is, and the theorems quantify over every sequence of steps. SHA-256 is
an injective function and times are numbers. Which file operations fail, and how long an
encoded sidecar is, are arbitrary functions that the disk chooses beforehand, so a method can
promise success when nothing fails; a fetch, an estimate or a save ends in an arbitrary result.

`dafny verify dfyconfig.toml` checks everything.

## Where the code and its promises part

Each of these is a lemma with a concrete input, or an if-and-only-if:

- A crash inside recovery or rollback, between putting back the body and the metadata, loses
  the old entry (`PairFiles.HalfRestoredLosesEntry`). What is served is whole all the same.
- A finished replacement is taken back by the next start if and only if its metadata backup
  was removed, its body backup was not, and the two bodies differ
  (`PairFiles.LeftoverKeepsNewIff`).
- A replacement that starts beside a backup an earlier one could not remove can lose the old
  entry in a crash, in exactly the directories where that backup is stale
  (`PairFiles.EntryDirectory.ReplacePair`, `PairFiles.StaleMetadataLosesEntry`).
- A replacement whose new entry is installed reports failure if and only if one of its final
  directory syncs failed (`PairFiles.EntryDirectory.ReplacePair`).
- Writing back metadata that was copied before a replacement makes the tracked byte total
  wrong by the difference of the two body lengths, so it stays exact if and only if they agree
  (`CacheStore.RepublishExactIff`, `CacheStore.StaleFlushDrifts`).
- A refreshed response brings back the pin of a deleted pack
  (`PackPins.RefreshRevivesPin`); a failed manifest write unpins a key that stays recorded
  (`PackPins.FailedSaveDropsPin`).
- `Done` can exceed `Total` if and only if the map gained core keys after the estimate, and a
  download can complete only if it has just as many, unless the estimate saw none
  (`PackFullRun.DoneWithinTotalIff`).
- A route point written as -180 degrees is taken for the same meridian written 180, so column
  0 is listed for it if and only if the bounds cross the antimeridian or start there
  (`TileCover.WestNameListedIff`).
- Overlapping mode switches leave auto mode without a generation
  (`OfflineMode.StuckIff`, `OfflineMode.OverlapGetsStuck`).
- A map generation whose file write fails after its rename is unpinned again, unless all its
  servable keys were already in the previous one; and once a generation could not be saved, the next
  swap that fails in any way and is taken back unpins the one on disk, if and only if any of it can
  be served (`MapGeneration.MapManager.PersistPinnedGeneration`,
  `MapGeneration.FailedSwapAfterUnsaved`).

## Model

| member | source | states |
|---|---|---|
| `PairFiles.EntryDirectory.ReplacePair` | internal/server/cache_store.go:964-1009 | Whatever renames and removals fail, whatever backups an earlier replacement left, and wherever a crash cuts it: a directory exposed before the metadata rename settles (one recovery, one load) to the old entry if and only if no such older backup is stale there (a body's alone beside the installed pair, or metadata's while the body is aside), and on a first write to what it settled to before; from that rename on, to the new entry if and only if a body backup of other bytes is not left there alone. It reports failure if and only if the new entry was not installed, or it was and one of the two final directory syncs failed; not installed means the old entry as before, or nothing while its two backups are half restored. Without foreign backups nothing is stale. Other entries are untouched. If no file operation fails, the entry is installed with nothing beside it. |
| `PairFiles.EntryDirectory.MoveAside` | internal/server/cache_store.go:976-986 | Dropping leftovers and moving both old files to their backups, and the undo when the second rename fails, exposes only directories that settle to the old entry, except exactly the stale ones; once both are moved, nothing of the leftovers remains. |
| `PairFiles.EntryDirectory.MoveIn` | internal/server/cache_store.go:995-1002 | Only the last rename changes what a restart finds; if either rename fails the backups still are exactly the old entry (on a first write, what was left there). |
| `PairFiles.EntryDirectory.Rollback` | internal/server/cache_store.go:987-994 | Whatever removals and renames fail, every directory of a rollback settles to the old entry or lies in the half-restored window. |
| `PairFiles.EntryDirectory.RecoverBackups` | internal/server/cache_store.go:391-428 | When no file operation fails, the two startup walks are clean: they leave each entry as its own recovery does, in any walk order, and every directory exposed on the way is a cut of each entry's own recovery. Whatever operations fail, every directory exposed on the way still settles, entry by entry, to what it settled to before, except where it was half restored already or one of its two backups is gone. |
| `PairFiles.SettleOutcome` | internal/server/cache_store.go:391-441 | Closed form of recovery plus load over every combination of files with a readable backup: which half-states give the installed pair, the backup pair, or nothing. |
| `PairFiles.RecoverIdempotent` | internal/server/cache_store.go:391-428 | Recovery leaves no backup and running it twice changes nothing. |
| `PairFiles.RecoveryCutOutcome` | internal/server/cache_store.go:391-428 | A recovery cut after any file operation keeps its outcome, or stands in the one half-restored window and loses the entry. |
| `PairFiles.CrashRunOutcome` | internal/server/cache_store.go:391-428 | After any number of starts that were each cut short, the last one yields the first outcome or nothing, and nothing only if a crash hit the half-restored window. |
| `PairFiles.HalfRestoredLosesEntry` | internal/server/cache_store.go:415-424 | The window is real: a concrete crash inside recovery, between the body and the metadata rename, loses a recoverable entry. |
| `PairFiles.LeftoverKeepsNewIff` | internal/server/cache_store.go:1003-1004 | Whichever of the two backups a finished replacement could not remove: the next start finds the new entry if and only if the body backup is gone, the metadata backup is still there, or both bodies are the same; otherwise it drops the entry, or lists the new metadata over the old body when the lengths agree. |
| `PairFiles.CleanSettles` | internal/server/cache_store.go:973-986 | Where no backup of another entry was left, none of a replacement's directories is stale: they all settle to the old entry. |
| `PairFiles.StaleMetadataLosesEntry` | internal/server/cache_store.go:976-983 | Concretely: an installed entry beside an older metadata backup settles to itself, but once the next replacement, unable to remove that backup, has moved the body aside, a restart finds nothing, or the old body under the older metadata when the lengths agree. |
| `PairFiles.RestoreOutlives` | internal/server/cache_store.go:391-428 | Putting a pair back from its backups, whichever of its removals and renames fail, exposes only directories with the outcome of before or with a single backup left. |
| `PairFiles.DropOutlives` | internal/server/cache_store.go:391-428 | So does dropping the backups of an installed pair, whichever of the two removals fails and in either order. |
| `PairReads.StepKeepsInv` | internal/server/cache_store.go:721-757 | Every file operation, by any code at any time, keeps each sidecar on disk, in the index or copied by a reader the description of a body that was really stored. |
| `PairReads.ServedPairsAreWhole` | internal/server/cache_store.go:721-757 | In every run with any interleaving of replacements, recoveries, damage, crashes and reads, whatever a read returns is a stored body with a sidecar made for that very body. |
| `PairReads.SidecarNamesOneBody` | internal/server/cache_store.go:716-719 | One checksum never vouches for two bodies, so mixed halves cannot pass the check. |
| `PairReads.ReadServes` | internal/server/cache_store.go:721-757 | A read ends by serving the installed body with its sidecar exactly when that body is the one the sidecar was made for, byte for byte; otherwise it serves nothing and removes what is installed. |
| `CacheIndex.BalancedAfterSet` | internal/server/cache_store.go:1165-1190 | Publishing an entry, new or replacing, keeps `pinnedBytes`, `scopeCounts` and `unpinnedScopeCounts` equal to their recomputation over the whole table. |
| `CacheIndex.BalancedAfterRemove` | internal/server/cache_store.go:1217-1244 | Removing an entry keeps the same three indexes equal to their recomputation. |
| `CacheIndex.TouchKeepsBalance` | internal/server/cache_store.go:750-754 | An access time changed in place moves no index. |
| `CacheIndex.LazyScanIsEager` | internal/server/cache_store.go:1023-1058 | While `nextExpiry` bounds every deadline, skipping a scan that is not due leaves exactly the entries a scan would. |
| `CacheIndex.ExpiredIffUnservable` | internal/server/cache_store.go:1033-1058 | A scan drops an unpinned entry exactly when it may no longer be served, a pinned one exactly when its hard deadline is over, and neither before its deadline. |
| `CacheIndex.EvictionTakesOldest` | internal/server/cache_store.go:1192-1206 | No eviction run takes an entry that was used more recently than an evictable one it leaves. |
| `CacheIndex.EvictionSpares` | internal/server/cache_store.go:1192-1206 | No eviction run takes a pinned entry or the one being replaced. |
| `CacheStore.Store.SetEntryLocked` | internal/server/cache_store.go:1165-1190 | Publishes exactly one entry and keeps every index exact and `nextExpiry` a bound on all deadlines. |
| `CacheStore.Store.RemoveLocked` | internal/server/cache_store.go:1217-1244 | Removes exactly that entry with its bytes, or, when a file cannot be removed, changes nothing. |
| `CacheStore.Store.EvictLRULocked` | internal/server/cache_store.go:1192-1206 | Evicts the least recently used unpinned entry other than the spared one; reports that nothing is left exactly when there is no such entry. |
| `CacheStore.Store.ExpireLocked` | internal/server/cache_store.go:1033-1058 | A finished scan leaves exactly the unexpired entries and an exact `nextExpiry`; a failed one keeps the old deadline and has removed only expired entries. |
| `CacheStore.Store.MakeRoomLocked` | internal/server/cache_store.go:1060-1093 | Evicts a minimal run in least-recently-used order (some limit was exceeded before every single eviction), never the replaced entry; ends with everything fitting, or with a limit exceeded and nothing evictable left. |
| `CacheStore.Store.AdmitLocked` | internal/server/cache_store.go:1023-1031 | Lazy expiry refines eager expiry: unless a removal fails, the outcome is one that making room after a full scan allows. |
| `CacheStore.Store.Put` | internal/server/cache_store.go:806-905 | A saved put publishes the incoming entry with the new sidecar length, except that an entry already listed keeps its pins; every other entry is as admission left it: unexpired, and evicted least recent first no further than needed. Entry count and charged bytes are within their limits, the scope count too, by one more exactly when the replaced entry was of another scope. Each refusal has its reason: too large, the window full for a new key, limits with nothing evictable left, the budget exceeded, or a file operation that failed; an early one changes nothing. The byte budget is charged by what the entry grew, exactly for a saved put (and for one whose write failed); the admission windows count exactly the saved new keys. |
| `CacheStore.Store.CheckRate` | internal/server/cache_store.go:849-867 | Refuses exactly when its class's current window is full, and then says how many seconds that window still runs; the window keeps tracking every admission so far and the other class's is untouched. |
| `CacheStore.Store.PublishEntry` | internal/server/cache_store.go:894-904 | Entry, scope and byte limits hold once a browsing put is published over an admitted table, with the same one-entry allowance for a replaced entry of another scope. |
| `CacheStore.Store.UpdateMetadataLocked` | internal/server/cache_store.go:1255-1293 | Rewriting a sidecar moves the tracked byte total off its recomputation by exactly the difference of the two body lengths. |
| `CacheStore.RepublishExactIff` | internal/server/cache_store.go:1280-1286 | The tracked byte total stays exact if and only if the rewritten metadata carries the published body length. |
| `CacheStore.StaleFlushDrifts` | internal/server/cache_store.go:1295-1311 | Over two store calls, a put and a write-back of metadata that was copied before it: the tracked byte total moves off its recomputation by exactly the difference of the two body lengths, and only if the write-back is stored. |
| `CacheStore.Store.Pin` | internal/server/cache_store.go:1313-1347 | Adds or removes one owner's pin on one entry, or reports why not and leaves that entry as it was; entries that stay keep their pins. |
| `CacheStore.Store.UpdatePinsLocked` | internal/server/cache_store.go:687-709 | One rewrite of an entry's pins keeps every index exact and touches no other entry. |
| `CacheStore.Store.UpdatePinOwner` | internal/server/cache_store.go:617-673 | On success this owner's pin is on exactly the wanted servable entries, and, unless it replaces, where it was before; no other owner's pin moves, on success or failure. On the way the table passes through states that differ by one rewritten entry each, every entry being as it was or as wanted; unavailable keys are exactly the wanted ones that may no longer be served. It fails only if a write failed or a sidecar grew too long. |
| `CacheStore.Store.ReconcilePins` | internal/server/cache_store.go:557-607 | Startup pins become exactly the desired ones of the entries that may be served and none elsewhere, one rewritten entry at a time, each being as it was or as desired at every moment; it fails only if a write failed or a sidecar grew too long. |
| `CacheStore.Store.TrimBrowsingLocked` | internal/server/cache_store.go:1118-1125 | Evicts in least-recently-used order, each entry while the charged bytes were still over the quota, never a pinned one, and ends within the quota or with nothing left to evict, unless a file operation failed. |
| `CacheStore.Store.LoadIndex` | internal/server/cache_store.go:335-389 | Loading sidecars in walk order lists exactly the named keys beside those already listed, each with the last sidecar of its key, and keeps all totals exact. |
| `CacheStore.LastWins` | internal/server/cache_store.go:335-389 | Of the sidecars of one key the last is listed; a key without any keeps its entry. |
| `CacheStore.Store.Clear` | internal/server/cache_store.go:1349-1390 | Removes only unpinned entries of the scope, and on success, which nothing but a failed file operation prevents, all of them. |
| `CacheStore.Store.ReserveControlStorage` | internal/server/cache_store.go:122-145 | Evicts only for a larger reservation, in least-recently-used order, each entry while the room was still short, and only unpinned ones; a reservation that succeeds fits the quota together with what is stored, and one that may succeed fails only for want of evictable entries or a failed file operation. |
| `CacheStore.Store.Over` | internal/server/cache_store.go:1060-1085 | The limit checks on the maintained counters decide the same as on totals recomputed from the table. |
| `CacheStore.Store.RepublishLocked` | internal/server/cache_store.go:1280-1286 | Replaces exactly one listed entry and moves the byte total by the two sidecar lengths. |
| `Admission.AdmissionBudget.Admit` | internal/server/packs.go:251-259 | Admits exactly what still fits, and a refusal charges nothing. |
| `Admission.AdmitTracks` | internal/server/cache_store.go:901-903 | After every admission the window still holds: no span shorter than 60 seconds contains more than twice the limit. |
| `Admission.CurrentTracks` | internal/server/cache_store.go:858-861 | Opening a fresh window keeps the same promise over the whole history. |
| `PackBudget.Interleave` | internal/server/cache_store.go:806-905 | Over any interleaving of one pack's puts with other packs' and browsing puts, reads and metadata write-backs, pin changes of one entry, one owner or all, removals, evictions, expiry, quota trimming, clearing and reservations, in any outcome: what the pack's own puts add to the store is at most what they charged, which is at most the budget's limit; nobody else charges it; and the admission windows stay paced throughout. |
| `PackBudget.PinsStay` | internal/server/cache_store.go:820-826 | Over the same interleavings, while an entry stays listed its pins change only in operations on pins and in write-backs of a copy of it: no put of anybody takes a pin away or adds one. |
| `RouteBounds.Bounds` | internal/server/packs.go:521-553 | The bounds contain every route point on an eastward arc, the latitude ends are attained, and no arc on the circle that contains the whole route is shorter. |
| `RouteBounds.WidestGap` | internal/server/packs.go:534-543 | Finds a gap between neighbouring positions, counting the wrap-around one, that no other gap exceeds. |
| `RouteBounds.SortPositions` | internal/server/packs.go:533-533 | Sorts in place and keeps the multiset of positions. |
| `RouteBounds.ArcCoversGaps` | internal/server/packs.go:521-553 | Any arc that contains all positions is at least the circle less the largest gap. |
| `RouteBounds.LargestGapArc` | internal/server/packs.go:544-552 | The arc from after a largest gap to before it contains every position and is exactly that long. |
| `RouteBounds.CrossesAntimeridianIff` | internal/server/packs.go:544-552 | The chosen arc passes 180 degrees exactly when its west end is the larger number. |
| `TileCover.Enumerate` | internal/server/packs.go:576-614 | Lists exactly the tiles the box spans, strictly sorted and so without duplicates, on both sides of the antimeridian; fails exactly when there are more than the cap. |
| `TileCover.SortTiles` | internal/server/packs.go:600-613 | Strictly ordered by zoom, column, row, with exactly the given tiles. |
| `TileCover.AddZoom` | internal/server/packs.go:579-598 | Adds exactly the tiles of one zoom, in one column interval or, across the antimeridian, two. |
| `TileCover.PointTileInSpan` | internal/server/packs.go:576-614 | The tile of every point inside the box is among the spanned ones. |
| `TileCover.RouteTiles` | internal/server/packs.go:521-614 | For bounds that enclose the route, lists exactly the tiles they span or fails because there are more than the cap; when listed, the tile of every point of the route is among them, at every zoom and across the antimeridian. A point written as -180 counts as the same meridian written 180. |
| `TileCover.WestNameListedIff` | internal/server/packs.go:521-614 | The column of the name -180 is listed if and only if the bounds cross the antimeridian or start in column 0, so a route that touches 180 from the west only does not list it. |
| `TileCover.ArcPointsBetween` | internal/server/packs.go:546-552 | Lying on the eastward arc from west to east is the comparison of longitudes that the enumeration makes, in both of its cases. |
| `TileCover.ColumnMonotone` | internal/server/packs.go:671-675 | Columns never decrease eastward and stay inside the zoom level. |
| `TileCover.ColumnIff` | internal/server/packs.go:671-675 | A column is exactly one of the equal strips that its zoom level cuts the circle into, from -180 eastward. |
| `TileCover.ColumnHalves` | internal/server/packs.go:671-675 | The whole circle is one column at zoom 0, and each zoom level halves every column. |
| `Decimal.FormatUint` | internal/mcp/bridge.go:239-251 | Formats any 64-bit value exactly, and the 20-byte buffer never underflows. |
| `Decimal.DigitsInjective` | internal/mcp/bridge.go:140-140 | Two command numbers never share an identifier. |
| `Decimal.PreimageInjective` | internal/server/cache_store.go:216-227 | Two requests with one length-prefixed preimage agree field by field, so a cache key stands for one request. |
| `Broker.Bridge.Call` | internal/mcp/bridge.go:127-148 | A call joins the queue of a view that no other view beats (visible first, then freshest) under a new larger number, or reports that no view is selectable or that the queue is full; queues stay bounded and in order. The payload stands last in that view's queue as it was given; every other view is as pruning left it. |
| `Broker.Bridge.ActiveViewLocked` | internal/mcp/bridge.go:184-198 | The selected view is selectable and preferred to every other; none is selected exactly when none is selectable. |
| `Broker.Bridge.PruneViewsLocked` | internal/mcp/bridge.go:200-207 | Forgets exactly the stale views on which no caller waits. |
| `Broker.Bridge.RemovePending` | internal/mcp/bridge.go:218-237 | An abandoned command leaves the pending table and every queue, and nothing else changes. |
| `Broker.Bridge.HandleResult` | internal/mcp/bridge.go:460-483 | A result is accepted if and only if its command is pending for that very view, and then settles exactly that command. |
| `Broker.Bridge.HeadCommand` | internal/mcp/bridge.go:427-438 | The head is the oldest queued command; an unknown view and an empty queue are told apart. |
| `Broker.Bridge.HandleView` | internal/mcp/bridge.go:322-345 | A heartbeat creates or updates a view without touching its queue; a reordered older one changes nothing; the number of views stays bounded. |
| `Broker.PruneKeepsConsistent` | internal/mcp/bridge.go:200-216 | A view with queued commands is never pruned. |
| `Broker.SettleKeepsConsistent` | internal/mcp/bridge.go:218-237 | Settling a command keeps every queue in order and made of pending commands of its own view. |
| `Broker.SettleTells` | internal/mcp/bridge.go:218-237 | Settling takes exactly that command out of the pending table and out of the queues, and changes nothing else of any view. |
| `Broker.Bridge.ViewHasPendingLocked` | internal/mcp/bridge.go:209-216 | True exactly when some pending command is of that view. |
| `Broker.EnqueueKeepsConsistent` | internal/mcp/bridge.go:140-143 | A new command gets the largest number so far, so its queue stays in issue order. |
| `Page.BrowserPage.Handle` | src/useMcpBridge.ts:152-175 | Takes the next message. A remembered command is never run again: if its answer is stored and not yet acknowledged, exactly that answer is submitted again, and if it is acknowledged, or still without an answer, the page just goes on. A new command is remembered (the oldest of more than 128 is forgotten) and run. |
| `Page.BrowserPage.Lookup` | src/useMcpBridge.ts:165-165 | Finds the remembered delivery of an identifier, or that there is none. |
| `Page.BrowserPage.CommandDone` | src/useMcpBridge.ts:190-195 | The outcome is stored with exactly its own delivery before it is submitted. |
| `Page.BrowserPage.SubmitDone` | src/useMcpBridge.ts:129-150 | Exactly an acknowledged submission marks exactly its own delivery done. |
| `CommandChannel.StepKeepsInv` | internal/mcp/bridge.go:350-424 | Every step of callers, broker, streams and pages keeps queue, wire and inbox in issue order behind the last command run, and keeps that command remembered. |
| `CommandChannel.CommandsRunOnceInOrder` | src/useMcpBridge.ts:152-196 | In every run, however often streams drop, a page runs each command at most once and in issue order, and no command runs on two pages. |
| `CommandChannel.FilterNeverForgets` | src/useMcpBridge.ts:165-174 | A command that can still come again and was already run is still remembered, although the filter holds at most 128. |
| `CommandChannel.UnknownHeadIsNew` | src/useMcpBridge.ts:165-174 | A command the filter does not know is younger than everything the page has run. |
| `CommandChannel.AnswersComeFromTheRun` | internal/mcp/bridge.go:440-484 | A caller that gets an answer gets what its own command's one run produced, and the answer never changes. |
| `CommandChannel.ReconnectShrinks` | internal/mcp/bridge.go:350-424 | A dropped stream loses only copies: what is still to come stays in issue order. |
| `CommandChannel.HeadDoubles` | internal/mcp/bridge.go:388-407 | Sending the unacknowledged head again puts its copy before every later command. |
| `Redelivery.RedeliveryIsAnswered` | src/useMcpBridge.ts:162-169 | In every run, a command that comes again after it has run is not run again: exactly the outcome of its one run is submitted again if no submission of it was acknowledged, and nothing if one was. |
| `Redelivery.MarkedIffAcked` | src/useMcpBridge.ts:131-142 | In every run a remembered command is marked answered for good if and only if a submission of its answer was acknowledged. |
| `Redelivery.ArrivesAsIssued` | internal/mcp/bridge.go:350-424 | In every run, every command on its way to a page is, text and number, one that a caller issued to that very view. |
| `Redelivery.RunsWhatWasIssued` | src/useMcpBridge.ts:152-176 | What a page starts to run is the head of its inbox, as it was issued. |
| `Redelivery.ResultAnswers` | internal/mcp/bridge.go:459-484 | A result that reaches the broker while its caller waits is that caller's answer, is what the command's one run gave, and takes the command out of table and queue; any other changes nothing. |
| `PackScheduler.StepKeepsInv` | internal/server/packs.go:1175-1401 | Every critical section keeps slot counts, queue bounds, per-owner bounds, the numbering of the line, one goroutine per held slot, and no lost wakeup. |
| `PackScheduler.PackBounds` | internal/server/packs.go:1211-1262 | In every run at most 2 table packs hold slots, at most 50 are active or waiting, and at most 16 of one account. |
| `PackScheduler.NoLostWakeup` | internal/server/packs.go:1352-1401 | Until shutdown, a pack waiting beside a free slot implies a live goroutine that is still to finish its search, even if every pack now holding a slot keeps it for ever. |
| `PackScheduler.NothingWaitsForEver` | internal/server/packs.go:1352-1401 | When all job goroutines are gone, no pack is waiting. |
| `PackScheduler.OneGoroutinePerPack` | internal/server/packs.go:1226-1243 | A pack holding a slot has exactly one live goroutine, so a retry never overlaps an attempt that is still stopping. |
| `PackScheduler.NextIsUnique` | internal/server/packs.go:1405-1422 | The choice of the next pack does not depend on map order. |
| `PackScheduler.FairChoice` | internal/server/packs.go:1405-1422 | Whenever a pack is reserved in a run, no other waiting pack's owner has fewer at work, and among one owner's it is the longest in line. |
| `PackScheduler.FirstComeFirstServed` | internal/server/packs.go:1352-1422 | Over a run: a pack that joined the line later is never reserved before a waiting pack of the same owner. |
| `PackScheduler.LoadedIsInv` | internal/server/packs.go:312-357 | A freshly loaded table, whose packs are all complete or interrupted, satisfies all of this. |
| `PackScheduler.AddKeepsInv` | internal/server/packs.go:1211-1262 | Adding a pack when its owner has room keeps the invariant, whether it is launched or put in line. |
| `PackScheduler.DeleteKeepsInv` | internal/server/packs.go:1907-1921 | Deleting a running pack frees its slot at once, and its goroutine is then the one that will look for a waiting pack. |
| `PackScheduler.CancelKeepsInv` | internal/server/packs.go:1888-1905 | Cancelling signals a launched job and only takes packs without one out of the line. `PackJobs.PackManager.CancelPack` says what cancelling changes. |
| `PackScheduler.CancelledIsNotReserved` | internal/server/packs.go:1888-1905 | Over a run: an attempt cancelled before its job began is never reserved or launched again, and its identifier is reserved again only after a new start. |
| `PackScheduler.CancelledStays` | internal/server/packs.go:1895-1896 | Over a run: a job that was told to stop stays told. |
| `PackScheduler.AdmitKeepsInv` | internal/server/packs.go:1368-1399 | A re-estimated pack is launched, refused or let go without disturbing the counts. |
| `PackJobs.PackManager.StartLocked` | internal/server/packs.go:1211-1262 | The locked half of a start: a repeated request finds its pack, a full queue or a still stopping attempt is reported and changes nothing, and otherwise the newest matching stopped pack, or a new one, enters the table exactly as the scheduler's step does. A new manifest is launched with the slot and a goroutine of its own, or joins the line under the next number. |
| `PackJobs.PackManager.NextQueuedLocked` | internal/server/packs.go:1405-1422 | Returns a waiting pack that none precedes by (owner's running packs, place in line), and none only when nothing waits. |
| `PackJobs.PackManager.RunningPerOwner` | internal/server/packs.go:1406-1411 | Counts every owner's slot-holding packs exactly. |
| `PackJobs.PackManager.RetryPackLocked` | internal/server/packs.go:1443-1459 | Returns the most recently updated stopped pack of the same owner and work, if there is one. |
| `PackJobs.PackManager.MatchingPackLocked` | internal/server/packs.go:1424-1441 | Returns a live or complete pack for the same request, and none only when there is none. |
| `PackJobs.PackManager.RunningLocked` | internal/server/packs.go:1462-1470 | Counts exactly the table packs that hold slots. |
| `PackJobs.PackManager.ActiveLocked` | internal/server/packs.go:1473-1481 | Counts exactly the running and waiting packs. |
| `PackJobs.PackManager.ActiveOwnerLocked` | internal/server/packs.go:1484-1492 | Counts exactly one owner's running and waiting packs. |
| `PackJobs.PackManager.ReserveNext` | internal/server/packs.go:1354-1366 | Reserves the fairest waiting pack, or leaves only when no slot is free, nothing waits, or the server stops. Exactly that manifest is marked at work. |
| `PackJobs.PackManager.AdmitReserved` | internal/server/packs.go:1368-1399 | After the estimate the reserved pack is launched with a goroutine of its own if it is admissible, refused and incomplete if not, and let go if it was cancelled or deleted meanwhile or the server stops; no other pack changes. |
| `PackJobs.PackManager.CancelPack` | internal/server/packs.go:1888-1905 | Another owner's pack is not found. A found one that has a job is told to stop and stays as it is otherwise; one that waits, or is being estimated, turns incomplete and leaves the line; any other is untouched. All other packs, the table and the goroutines stay as they are. |
| `PackJobs.PackManager.DeletePack` | internal/server/packs.go:1907-1921 | Another owner's pack is not found. A found one leaves the table, is marked deleted, and its job, if it can still be cancelled, is told to stop; nothing else changes. |
| `PackJobs.PackManager.RunBegins` | internal/server/packs.go:1519-1521 | The first update of a job: running, or over at once when it was deleted or cannot be saved. |
| `PackJobs.PackManager.MarkIncomplete` | internal/server/packs.go:1522-1532 | A stopped or limited job that is not deleted is incomplete and no longer cancellable, and an unsaved one is told to stop; nothing else changes. |
| `PackJobs.PackManager.RunEnds` | internal/server/packs.go:1765-1776 | The last update of a job in the scheduler: complete or incomplete as the update decides, in whatever state it finds the pack, and no longer cancellable. `PackCompletion` says when it decides which. |
| `PackJobs.PackManager.RunReleases` | internal/server/packs.go:1510-1515 | The slot is given back before the line is looked at. |
| `TileBatches.StepKeepsInv` | internal/server/packs_regional.go:69-99 | Under every interleaving of the workers, what was claimed is fetched or in one worker's hands, and never twice. |
| `TileBatches.FetchedAtMostOnce` | internal/server/packs_regional.go:69-99 | No tile is ever fetched twice, and none outside the list. |
| `TileBatches.SuccessMeansAllOnce` | internal/server/packs_regional.go:67-101 | Success means every tile was fetched exactly once and none failed, under every interleaving. |
| `TileBatches.FailureIsReported` | internal/server/packs_regional.go:91-98 | A failed fetch is never reported as success, neither by the workers nor by the plain loop. |
| `TileBatches.StopIsReported` | internal/server/packs_regional.go:69-98 | Workers whose job was stopped report it at the end of that very batch, never success. |
| `TileBatches.FetchInTurn` | internal/server/packs_regional.go:61-68 | A single worker fetches in order, stops at the first failure, and succeeds exactly when none failed. |
| `PackProgress.Manifest.Settle` | internal/server/packs.go:1785-1809 | Every applied outcome updates counters, category totals and recorded keys together, and they stay equal to their recomputation over the log; a deleted pack changes nothing; an unsaved manifest keeps the record but is incomplete and stops its job. |
| `PackProgress.Manifest.AddCacheKey` | internal/server/packs_regional.go:120-131 | Each key is recorded once, after those before it, and the lookup set equals the list. |
| `PackProgress.Manifest.UpdatePackResource` | internal/server/packs.go:726-738 | If the done, failed, byte and item counters of all categories were those recomputed from a log, they are again once the outcome joins it; the totals stay and no other category appears. |
| `PackProgress.Manifest.Finish` | internal/server/packs.go:1765-1776 | In whatever state it finds a manifest that is not deleted: complete exactly when nothing failed, `Done` equals `Total`, nothing is unavailable and it was saved, else incomplete; no longer cancellable. |
| `PackProgress.Manifest.MarkIncomplete` | internal/server/packs.go:1522-1532 | Incomplete and no longer cancellable, with every counter as it was; nothing changes once deleted. |
| `PackProgress.Manifest.Delete` | internal/server/packs.go:1907-1921 | Deleting stops a job that can still be cancelled and keeps the record. |
| `PackProgress.CountersAreSums` | internal/server/packs.go:726-738 | An exact record's `Done`, `Failures` and `Bytes` are the sums over the categories. |
| `PackProgress.TalliedIsExact` | internal/server/packs.go:1583-1589 | One more outcome keeps all counters, categories and keys equal to their recomputation. |
| `PackProgress.FittingIsUnique` | internal/server/packs.go:726-738 | The log, the totals and the categories named determine every category counter. |
| `PackProgress.KeysRecorded` | internal/server/packs_regional.go:120-131 | Recorded keys are exactly the earlier ones and the accepted ones, without duplicates. |
| `PackProgress.NoFailureMeansAccepted` | internal/server/packs.go:1765-1776 | With no failure counted, every outcome was an acceptance and every key, old ones included, is recorded. |
| `PackProgress.TotalsAreSums` | internal/server/packs.go:726-738 | Over any history the overall totals equal the sums of the category totals. |
| `PackPins.StepKeepsInv` | internal/server/packs.go:1575-1606 | Every step of workers, deletion, clean-up and refreshes keeps each pin recorded, in one worker's unfinished step, or known to be stray. |
| `PackPins.LivePackPins` | internal/server/packs.go:1575-1606 | Until deletion every pin is recorded, in a worker's hands or stray, and the recorded keys without a pin are exactly the dropped ones. |
| `PackPins.FinishedLeavesOnlyStray` | internal/server/packs.go:1907-1933 | After deletion, clean-up and the last worker, the remaining pins are exactly the stray ones. |
| `PackPins.DeletedPackHoldsNoPins` | internal/server/packs.go:1779-1809 | Under every interleaving in which no unpin fails and no refresh writes back an older pin, a finished pack holds no pin. |
| `PackPins.StrayStep` | internal/server/packs.go:1779-1783 | A pin becomes stray in a failed unpin or a write-back of older metadata, and in no other step. |
| `PackPins.DroppedStep` | internal/server/packs.go:1575-1606 | A recorded key is without its pin after a step if and only if that step took it (a failed save, an unpin, a lost entry, metadata copied before the pin), or it was so before and the step did not pin it again. |
| `PackPins.RefreshRevivesPin` | internal/server/provider.go:503-524 | Concretely: a refresh that copied metadata before the deletion stores the pin again after the clean-up. |
| `PackPins.FailedSaveDropsPin` | internal/server/packs.go:1799-1806 | A manifest write that fails unpins a key that stays recorded. |
| `PackPins.NoStrays` | internal/server/packs.go:1779-1783 | Without a failed unpin or such a write-back nothing is ever stray. |
| `PackCleanup.CleanupPack` | internal/server/packs.go:1923-1933 | Takes the pack's pin off every recorded key except where an error is reported, and changes no other pin. Errors name only keys of the pack, and on a disk that refuses nothing only because the entry is gone or the cache is full of pins. |
| `PackJob.StepKeepsOnPlan` | internal/server/packs.go:1607-1757 | Every step of the three stages and of what interrupts them keeps each batch within its part of the plan, busy exactly the workers that claimed a resource, and a stage that reported failure stopped. |
| `PackAccount.StepKeepsOnce` | internal/server/packs.go:1607-1757 | No resource is settled twice, whichever stages, batches and workers interleave: an unfinished worker's resource is not in the history, and two workers never hold one. |
| `PackAccount.StepLosesNothing` | internal/server/packs.go:1607-1757 | Every resource of a segment that a stage has passed, and every fetch that a batch counts as good, is in the history. |
| `PackAccount.StepKeepsTold` | internal/server/packs.go:1544-1606 | The record's log and the history of resources grow together, each entry telling of its own planned resource, and all counters stay exact. |
| `PackAccount.HandsApart` | internal/server/packs_regional.go:78-91 | Two workers never hold one resource. |
| `PackCourse.StepKeepsLinked` | internal/server/packs.go:1575-1606 | A worker stands in the pack's pins exactly between pinning and recording or unpinning, with the key of the resource it claimed, and the pins' recorded keys are the manifest's. |
| `PackCourse.FailingStays` | internal/server/packs_regional.go:78-116 | Once a worker or a stage is on its way to report failure, some worker or stage is until the job is over: no failure is lost between the tile, the batch, the stage and the join. |
| `PackCourse.StepKeepsLifecycle` | internal/server/packs.go:1508-1777 | A download at work is running, or incomplete with a failure on its way; only success of all stages leads to the last update; a complete one has all stages succeeded. |
| `PackCourse.StepKeepsInv` | internal/server/packs.go:1508-1809 | Every step of stages, workers, cancellation, deletion and the cache keeps all of this. |
| `PackCompletion.CompleteMeansEachOnce` | internal/server/packs.go:1758-1776 | In every run, a download that is complete went through exactly as many resources as the estimate named: each ended exactly once, accepted; each key was pinned, then recorded, and is still pinned unless the cache lost the entry, rewrote it from an older copy, or the download was deleted; earlier keys stay recorded. |
| `PackCompletion.LastUpdateFindsAllEnded` | internal/server/packs.go:1758-1765 | Although the last update tests no state, in every run it finds the download running (or deleted), every planned resource ended and no worker at work. |
| `PackCompletion.IncompleteStays` | internal/server/packs.go:1522-1532 | In every run an incomplete download stays incomplete, whatever its other workers still do. |
| `PackCompletion.StoppedNeverCompletes` | internal/server/packs.go:1533-1543 | In every run a job stopped before its stages have all returned never completes. |
| `PackCompletion.StopIsNoFailure` | internal/server/packs.go:1544-1550 | In every run, after a stop no worker begins another resource, and only errors already seen before it are still counted as failures. |
| `PackCompletion.RefusedUpdateFails` | internal/server/packs.go:1552-1567 | An update that was refused, or a failure that used up a limit, sends its worker to report failure, and no other settled resource does. |
| `PackCompletion.OverIsDecided` | internal/server/packs.go:1758-1776 | A job that is over says complete or incomplete, unless it was deleted. |
| `PackCompletion.ProgressAddsUp` | internal/server/packs.go:726-738 | At every moment of every run `Done`, `Failures` and `Bytes` are the sums over the categories, and `Done` is at most what was planned. |
| `PackCompletion.AcceptedWasPinned` | internal/server/packs.go:1579-1606 | In every run, whatever the log counts as accepted under a key was pinned by the worker that recorded it, before it recorded it. |
| `PackCompletion.KeptPinned` | internal/server/packs.go:1575-1606 | In every run, until a failure is under way or the download is deleted, every accepted key and every key about to be recorded is pinned, as long as the cache itself takes no pin away. |
| `PackFullRun.FullRun` | internal/server/packs.go:1508-1776 | From every setup there is a run through every planned resource without a failure, at whose end the download is complete exactly when the counts agree and nothing is unavailable. |
| `PackFullRun.CompletesIff` | internal/server/packs.go:1765-1776 | Some run completes if and only if the job has as many resources as the estimate named and none was unavailable. |
| `PackFullRun.WithinTotalIff` | internal/server/packs.go:1765-1776 | The manifest's `Done` stays within `Total` in every run if and only if the job has no more resources than the estimate named. |
| `PackFullRun.DoneWithinTotalIff` | internal/server/packs.go:1693-1708 | `Done` stays within `Total` in every run if and only if the map has no more core keys than the estimate saw (or it saw none); some run completes if and only if it has just as many (or the estimate saw none) and nothing is unavailable. |
| `PackFullRun.PlanCounts` | internal/server/packs.go:897-1159 | What the three stages go through is what the estimate counted, except for core keys the map gained or lost since. |
| `OfflineMode.ActiveIsIssuedMinusReleased` | internal/server/provider.go:91-115 | In every run `active` is the number of issue steps so far less the number of contexts that some release step named: releasing a context again takes nothing. |
| `OfflineMode.SwitchDrains` | internal/server/provider.go:73-82 | When a switch to cache-only returns, every context issued so far, so every earlier one, is released. |
| `OfflineMode.CacheOnlyCancelsAll` | internal/server/provider.go:73-101 | In cache-only mode nothing is issued, and whatever is still live has been cancelled. |
| `OfflineMode.IssuedFresh` | internal/server/provider.go:83-101 | In every run a context is never issued already cancelled. |
| `OfflineMode.StuckIff` | internal/server/provider.go:79-83 | The mode becomes auto without a usable generation exactly when a drained switch finishes after the mode went back to auto. |
| `OfflineMode.OverlapGetsStuck` | internal/server/provider.go:79-88 | Concretely: two overlapping switches leave network use allowed with no context ever issued. |
| `OfflineMode.StuckUntilSwitched` | internal/server/provider.go:70-72 | Switching to auto does not repair it; only a switch to cache-only does. |
| `OfflineMode.SerializedIsNeverStuck` | internal/server/provider.go:62-89 | If no switch to auto happens while another switch waits, it never occurs. |
| `OfflineMode.OfflineModeController.Set` | internal/server/provider.go:62-89 | Refuses exactly an override of startup cache-only, changes nothing when the mode is the same, and otherwise performs the switch. |
| `OfflineMode.OfflineModeController.Drain` | internal/server/provider.go:79-84 | At its end every issued context is released. |
| `OfflineMode.OfflineModeController.NetworkContext` | internal/server/provider.go:91-115 | Issues a context exactly in auto mode with a generation. |
| `OfflineMode.OfflineModeController.ReleaseContext` | internal/server/provider.go:104-114 | Marks exactly that context released and lowers `active` by one the first time only; nothing else changes. |
| `OfflineMode.StepKeepsInv` | internal/server/provider.go:62-115 | Every switch, issue and release keeps `active` exact and every live context cancelled or of the current generation. |
| `Outbound.StepKeepsInv` | internal/server/provider.go:320-389 | Every request, fetch end and caller leaving keeps both counters exact, all limits, and every caller on a fetch of what it asked for. |
| `Outbound.SingleFlight` | internal/server/provider.go:320-380 | At most one unfinished fetch exists for a coalescing key. |
| `Outbound.QueueBounds` | internal/server/provider.go:337-341 | The whole queue, each provider and each signed-in owner stay within their limits; an account never holds more than 32 of the default 64. |
| `Outbound.CountersSumToInflight` | internal/server/provider.go:339-379 | Provider counters and owner counters both add up to the number of fetches under way. |
| `Outbound.AnswersAreTheFetchs` | internal/server/provider.go:320-389 | Callers of one fetch get that fetch's one result, all asked for the same, and on behalf of one owner or all of nobody. |
| `Outbound.AnswerIsTheEnd` | internal/server/provider.go:320-389 | In every run a caller's answer is, word for word, what one fetch of exactly what it asked for ended with: a fetch it joined while that was under way, and that was ended by exactly one step. |
| `Outbound.ShareIff` | internal/server/provider.go:407-422 | Any two requests share a fetch if and only if they ask the same for the same owner, or both for nobody; an owner counts only for owner-scoped data. |
| `Outbound.OwnersShareIff` | internal/server/provider.go:407-422 | Two owner-scoped requests share a fetch if and only if they ask the same and have the same owner, or both have none. |
| `Outbound.SharedIsApart` | internal/server/provider.go:407-422 | An owner's request for owner-scoped data never joins a shared fetch. |
| `Outbound.OutboundClient.Ask` | internal/server/provider.go:320-349 | Joins the fetch of its key if there is one; otherwise is refused if its caller is gone, starts a fetch exactly when the whole queue, the provider and a signed-in owner's share have room, and is told busy else. Exactly the joined or started fetch is what the caller waits for. |
| `Outbound.OutboundClient.FetchDone` | internal/server/provider.go:372-379 | The result becomes that fetch's, which had none; its place is free; callers, answers and every other fetch stay as they are. |
| `Outbound.OutboundClient.OwnerMayQueueLocked` | internal/server/provider.go:396-401 | Limits only signed-in owners, only once the queue is half full, to a quarter of it. |
| `Outbound.OwnersSum` | internal/server/provider.go:342-377 | Splitting the fetches by owner counts each exactly once. |
| `Outbound.ProvidersSum` | internal/server/provider.go:341-374 | Splitting the fetches by provider counts each exactly once. |
| `MapGeneration.MapManager.PersistPinnedGeneration` | internal/server/maps.go:333-357 | At every single instant, one sidecar write at a time, each still servable core key of the generation on disk is pinned, if it was at first and the generation before is known, on every pin failure and unless the file write fails after its rename; up to and including the swap that holds in every case, so a kill before it loses nothing. On a disk that refuses nothing it succeeds if and only if the file was written and every new key could be served at both pin updates; then exactly the new generation is pinned. Whatever made it fail, once the restore is complete the generation on disk is pinned if and only if it is known. Other owners' pins never move. |
| `MapGeneration.MapManager.Restore` | internal/server/maps.go:341-344 | Going back one sidecar at a time keeps the disk's generation pinned throughout if it is the known one; once complete, exactly then. |
| `MapGeneration.MapManager.AddPins` | internal/server/maps.go:345-351 | Adding pins one sidecar at a time keeps the disk's generation pinned at every instant, and when complete the whole new generation is pinned. |
| `MapGeneration.MapManager.DropOldPins` | internal/server/maps.go:355-356 | Keeps the generation on disk pinned at every instant and, when complete, nothing else of this owner. |
| `MapGeneration.MapManager.Activate` | internal/server/maps.go:564-581 | A generation that could not be saved leaves the one on disk unknown unless nothing of it can be served. On a disk that refuses nothing it is durable if and only if the swap succeeds. |
| `MapGeneration.FailedSwapAfterUnsaved` | internal/server/maps.go:333-357 | After an activation that could not be saved, the next swap that fails, in whatever way, and is taken back completely leaves the generation on disk pinned if and only if nothing of it can be served. |
| `MapGeneration.MapManager.LoadGeneration` | internal/server/maps.go:224-271 | Adopts the generation on disk exactly when every core key can still be served. |
| `MapGeneration.ReplacedKeepsIff` | internal/server/cache_store.go:617-673 | A completed replacement of pins keeps the generation on disk pinned if and only if it wants every servable key of it. |
| `MapGeneration.ReplacingKeeps` | internal/server/cache_store.go:617-673 | A replacement cut anywhere keeps the pins of every servable key still wanted and of every other owner. |
| `RoutingDatasets.StepKeepsInv` | internal/server/broom.go:361-424 | Every step of queries, replacements, sessions, uploads and closers keeps counters exact and every graph in exactly one hand: to be published, current, in one session, with a closer, or being closed. |
| `RoutingDatasets.ClosedOnlyWhenDrained` | internal/server/broom.go:361-393 | A graph is never closed while a query holds it, and its drain signal is sent exactly once: when it is closing and nobody holds it. |
| `RoutingDatasets.AcquireAlwaysSucceeds` | internal/server/broom.go:713-728 | Taking the current graph, or exactly the named session's, under the service lock always succeeds and counts one more holder of it, which the unchecked acquire of an upload relies on. |
| `RoutingDatasets.QueryKeepsItsGraph` | internal/server/broom.go:361-393 | In every run a query holds the graph it took until it gives it back, and nobody closes that graph meanwhile. |
| `RoutingDatasets.CurrentStep` | internal/server/broom.go:404-413 | The current graph changes only when one replaces it, to that one, and at the stop, to none. |
| `RoutingDatasets.SessionStep` | internal/server/broom_session.go:96-150 | A session exists from the upload that added it until it is dropped, is that upload's owner's, and is over the graph it brought. |
| `RoutingDatasets.OneCloser` | internal/server/broom.go:404-424 | In every run no graph is begun to be closed twice, although pending closers are a multiset that every replacement, stop, discarded upload and dropped session adds to and any member of it may close. |
| `RoutingDatasets.HandedOverOnce` | internal/server/broom.go:404-424 | In every run a graph has been handed to exactly one closer if nobody keeps it any more (not an upload to publish it, nor the current one, nor a session), and to none before; those are exactly the graphs a closer has or has begun to close, so none leaks. |
| `RoutingDatasets.OnePlace` | internal/server/broom_session.go:152-199 | In every run a session's graph is neither the current one, nor another session's, nor with a closer. |
| `RoutingDatasets.SessionBounds` | internal/server/broom_session.go:96-121 | At most 8 session profiles, and at most 2 of one account, although the limit is checked before the profile is built. |
| `RoutingDatasets.BroomDataset.Acquire` | internal/server/broom.go:361-369 | Refuses exactly a closing graph; otherwise the query joins the holders, and the counter still is their number, a drained graph has none and no closed graph is held. |
| `RoutingDatasets.BroomDataset.Release` | internal/server/broom.go:371-378 | The query leaves the holders; the drain signal, never sent before, is sent exactly when the graph is closing and this was its last holder. |
| `RoutingDatasets.BroomDataset.BeginClose` | internal/server/broom.go:380-386 | Closing sends the drain signal at once exactly when nobody holds the graph, and keeps the holders. |
| `RoutingDatasets.BroomDataset.FinishClose` | internal/server/broom.go:387-393 | Once drained the graph is closed, and no query holds it. |

## Left out

- HTTP handlers, JSON and PNG decoding, headers, authentication, logging and statistics.
- Real disks, clocks and networks; flushing to stable storage; free-space measurement (an arbitrary yes or no).
- PairFiles.EntryDirectory.RecoverBackups: says what a directory settles to after failed operations only while both backups or neither are there; with one left over, `LeftoverKeepsNewIff` and `HalfRestoredLosesEntry` say what can be lost.
- PairReads.ServedPairsAreWhole: says nothing about which of two entries is served, and a read that loses a race may remove the newer pair, as in the code.
- CacheStore.Store.Put: the gap between admission and publication, in which only reads change the table, is one step here; a bulk put that may use the disk is not charged, as in the code.
- CacheStore.Store.Pin: pins are sets, and a sidecar written to disk before its directory sync fails is not told apart from one that was not written.
- Startup trimming of a loaded cache (internal/server/cache_store.go:466-555): the same expiry and eviction orders over one sorted list.
- CommandChannel.CommandsRunOnceInOrder: pages that are closed while a command runs simply take no more steps, and shutting down the broker is not modelled.
- RouteBounds.Bounds: longitudes are real numbers, so floating-point rounding is not modelled.
- TileCover.Enumerate: rows are any function of latitude that never grows northward, in place of the Mercator formula.
- Padding of bounds, route corridors and POI search areas around them (internal/server/packs.go:555-574, 616-669, 786-871): trigonometry over the same enumeration.
- PackJobs.PackManager.StartLocked: two manifests that alias one object are handles into one sequence; estimates, keys and persistence enter as arbitrary results.
- PackProgress.Manifest.MarkIncomplete: error codes and their order of precedence are not modelled, only the state they come with.
- PackJob: the plan is what the job goes through once it has started; a regional download's batched checkpoints are saves that succeed, and fetches, budgets and byte counts end in arbitrary results.
- PackCompletion.CompleteMeansEachOnce: elevation tiles are pinned by another store before the job starts and have no key here; a deadline and a cancellation are one stop.
- PackPins.DeletedPackHoldsNoPins: unpinning may fail and a refresh may write back old pins, so the property is stated for the runs without either; what else can happen is `FinishedLeavesOnlyStray`.
- PackPins, TileBatches and PackJob follow their goroutines as state machines over values, without a class around them; the manifest itself is a class (`PackProgress.Manifest`), whose updates the job's steps apply.
- Elevation tile pins, owner caches and passkey accounts: simpler repeats of pins, quota and least-recently-used order, or foreign code.
- OfflineMode.OfflineModeController.Set: waiting for the network to drain is split into `Set` and `Drain`; that the wait ends is not claimed.
- Outbound: retries, circuit breaker, rate groups and freshness headers (internal/server/provider.go:436-594, 666-900) decide one response each and touch none of the shared tables modelled here.
- MapGeneration.MapManager.PersistPinnedGeneration: other cache operations between its sidecar writes are not interleaved; each update is shown to keep the pins from any state that has them.
- Query slots (internal/server/broom.go:794-819), region preparation jobs and profile parsing around routing graphs.
- RoutingDatasets.AcquireAlwaysSucceeds: the service's locked sections are steps over values; only one graph's handle is a class.
- Liveness: a waiting pack is never forgotten, but no bound is given on how long a job runs.
