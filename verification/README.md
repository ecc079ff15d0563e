# Durable collections over two stores: a model and its proofs

A Go library keeps durable collections on two stores that cannot commit together: a key-value store with serializable
transactions for metadata, and a blob store for bodies. This Dafny project models the protocols that keep the two in
step, and proves what they keep, over every interleaving, every crash point and every input.

- **Storage** (`Scans`, `Overlay`, `SizedReaders`): one definition of an ordered scan that both engines' scan algorithms
  meet; transactions as an overlay on a snapshot; the streaming and the buffering size check.
- **Tree** (`Nodes`, `TreeStore`, `Graphs`, `TreeSystem`, `TreeBodies`, `TreeReads`, `TreeClosure`, `TreePresence`,
  `TreeHazard`, `TreeFencing`, `TreePlanning`, `TreeSweeping`, `TreeGarbage`, `Trees`): content-addressed nodes, refs
  moved by compare-and-swap under fencing tokens, and a two-phase garbage collector. `Trees` holds the operations as a
  class; `TreeSystem` is the same store as a concurrent system whose atomic steps are single transactions, reads, body
  puts and body deletes.
- **Queue** (`Jobs`, `QueueSystem`, `QueuePayloads`, `QueueCleanup`, `QueueLeases`, `Queues`): the leased work queue, as
  classes and as a concurrent system with upload-then-publish enqueues, three-phase completion and a two-phase reaper.
- **LRU** (`Lru`): victim selection under two caps, and conditional eviction racing with other writers.
- **CAS** (`Cas`): revisions, tombstones, resurrection, paged listing and a collector that scans first and deletes later.
- `ByteStrings`, `Sorting` and `Results` hold Go's string order, sorting, and optional values and errors.

The two forms share their definitions. What each transaction does to the records is a function (in `TreeStore`, `Jobs`,
`Lru` and `Cas`); the class methods are proved to compute these functions and to have the effects that their contracts
state field by field, and the system steps apply them. The system's planner, which walks one node at a time, is proved in
`TreePlanning` to find the same plan as the class's recursive `PlanGC` whenever the metadata stands still, and its sweeps
are proved in `TreeSweeping` to have done their work by the time they return.

## What the model assumes

- A transaction commits all of its writes or, when it fails, none. A commit whose outcome the caller cannot tell is not
  part of the model.
- `randomHex` and `newID` return values that were never used before, modelled as natural numbers.
- Hashes are parameters. `Nodes.Ideal` asks of the content hash that it yields hex text and has no collisions, and
  `Nodes.IdealHashExists` shows that this can be met.
- Clock readings are integers. Within the queue they do not go back from one committed transaction to the next.
- Sizes, tokens, versions, revisions and attempt counts do not overflow.
- Each key prefix is its own map. That prefixes do not overlap rests on keys being hex, Base64url (section 5 of RFC 4648)
  or everything behind a fixed prefix.

## Where the code does less than its text suggests

- `tree/tree.go:645-649` and `docs/reference.md:120-124` ask callers to serialize ref publication through the lease of
  the sweep. That is not enough. `CompareAndSwapRefFenced` checks that the new node is stored, not that its closure is;
  and `PutNode` is not fenced, so a publisher that has lost its lease can still put a node over a blob that the
  collector's plan already holds. A later session that finds this node present and points a ref at it ends with a ref
  whose blob is missing. `TreeHazard.PresenceIsNotEnough` builds that run, in which this one put is the only step that is
  out of order. `TreePresence.PresenceIsEnoughUnderGuard` proves that nothing else is needed: when nodes are put only
  while the putting session holds the lease, publishers may go by what is present. `TreeClosure.RefsStayIntact` proves a
  discipline that needs no such guard: build only on what the session itself put, or read from a ref, or found to refer
  only to such objects.
- `tree/tree.go:101` calls lease tokens monotonically increasing. `ReleaseLease` deletes the count, and an acquire that
  finds no record starts again at token 1. Superseded tokens stay unaccepted exactly as long as that acquire does not
  happen (`TreeFencing.FencedIffNoRestart`), so certainly while nobody releases the lease
  (`TreeFencing.SupersededStaysFenced`); `TreeFencing.ReleaseReopens` is a run in which it happens.
- An LRU victim is recognised by its revision and access time. An entry set or touched after the scan is lost to the
  evictor exactly when its key was deleted in between and both show again (`Lru.FreshEntryIsLostIff`);
  `Lru.RecreatedEntryIsEvicted` is a run in which they do.
- `lru/lru.go:34-39` and `lru/lru.go:230` say that a zero timestamp is replaced by the current time. `Set` compares
  `UnixNano` with 0, which is the start of 1970; for Go's zero time `UnixNano` wraps to -6795364578871345152. So an unset
  access time is not replaced (`Lru.WhenTimeIsNow` says which are), and the entry is among the first to be evicted
  (`Lru.UntimedGoesFirst`). Go's documentation leaves that value undefined; the model takes the wrapped one.
- A compare-and-swap that succeeds on a revision read earlier proves that nothing was written since, exactly when the key
  was not collected in between (`Cas.SwapProvesUntouched`); `Cas.RevisionsRestartAfterCollection` is a run in which it
  was.
- Node encodings are unambiguous over an alphabet of entry bytes exactly when that holds none of the bytes 0, 2 and 3
  (`Nodes.UnambiguousIffNoSeparator`), hex text in particular. `PutNode` does not check the entries.

## Model

| member | source | states |
|---|---|---|
| `Scans.ScanEntries` | storage/memory.go:88-115 | filter, sort, reverse and truncate return exactly `Scan`, and so what `IsScan` describes, for every map, prefix, StartAfter, limit and direction |
| `Scans.ScanCharacterised` | storage/storage.go:46-55 | being the scan is the same as: in order, only stored entries with the prefix behind StartAfter, within the limit, and what is left out lies behind a full page |
| `Scans.PagesCoverTheScan` | storage/storage.go:49-50 | resuming after a page's last key yields the rest of the unlimited scan, nothing lost or repeated |
| `Scans.SuccessorIsLeast` | storage/slatedb.go:172-174 | the incremented cut is the least byte string above all strings with the prefix; without a byte below 0xFF nothing lies above them all |
| `Scans.PrefixSuccessor` | storage/slatedb.go:175-186 | the backward scan finds exactly that bound, and none exactly for prefixes of 0xFF bytes only |
| `Scans.PrefixIsRange` | storage/slatedb.go:148-158 | the strings with a prefix are exactly the interval from the prefix to its successor |
| `Scans.RangeFor` | storage/slatedb.go:148-170 | the bounds admit every matching key, and exactly which others once StartAfter overwrites a bound |
| `Scans.KeptIsScan` | storage/slatedb.go:218-240 | filtering any range that holds all matching keys gives the unlimited scan |
| `Scans.ScanWith` | storage/slatedb.go:208-242 | the loop keeps the matching entries and stops at a full page |
| `Scans.SlateScan` | storage/slatedb.go:208-242 | the range-bounded scan returns exactly what the filter-and-sort scan returns |
| `Overlay.MemoryTx.Get` | storage/memory.go:150-162 | a read sees the snapshot with the transaction's own writes laid over it |
| `Overlay.MemoryTx.Scan` | storage/memory.go:175-189 | a scan inside a transaction equals a scan of that overlaid map |
| `Overlay.MemoryTx.Perform` | storage/memory.go:150-189 | each operation answers, and leaves the view, as running it directly on a private copy would |
| `Overlay.MemoryKV.Transaction` | storage/memory.go:120-142 | for any callback that returns, whatever it chooses by the replies so far: the replies are those of running it directly on a private copy, a nil return commits exactly that copy, an error leaves the map untouched |
| `Overlay.CallIsRun` | storage/memory.go:120-142 | every such callback has performed exactly the operations it chose, each by the replies up to there; to these the laws in the next five rows apply |
| `Overlay.DirectRunConcat` | storage/memory.go:117-119 | a law of the direct run that specifies transactions: later operations run on exactly what earlier ones left |
| `Overlay.LastWriteWins` | storage/memory.go:164-173 | likewise: a key that is written ends as the last write of it says |
| `Overlay.UnwrittenStays` | storage/memory.go:133-140 | likewise: a key that is never written keeps its value |
| `Overlay.GetSeesLastWrite` | storage/memory.go:144-162 | a read inside a transaction answers with its last earlier write of the key |
| `Overlay.GetSeesSnapshot` | storage/memory.go:144-162 | and, if there is none, with what was stored when the transaction began |
| `SizedReaders.ExactSizeReader.Read` | storage/s3.go:129-168 | one call moves the reader's state and answers as the pure step does, for every source behaviour and buffer size |
| `SizedReaders.ExactRunDelivers` | storage/s3.go:120-121 | for every source, endless ones included: up to the first error its first bytes are delivered; end of file means exactly the declared size and an ended source; size and read errors are truthful |
| `SizedReaders.ExactRunEnds` | storage/s3.go:129-168 | of a source that stops answering with nothing, be it endless or not, reading into non-empty buffers always reaches end of file or an error |
| `SizedReaders.ExactAccepts` | storage/s3.go:129-168 | the streaming check accepts exactly the sources that end after the declared size, and then delivered all of it |
| `SizedReaders.ReadExactSize` | storage/memory.go:267-284 | the buffering check accepts exactly the same sources, and returns their bytes |
| `Nodes.Canonical` | tree/tree.go:70-92 | the buffer written in loops is the encoding: name, flag, tagged sorted lists |
| `Nodes.DecodeEncoded` | tree/tree.go:62-92 | an encoding whose entries hold none of the bytes 0, 2, 3 can be read back to name, flag and both sorted lists, even when the name holds them |
| `Nodes.EncodedAlike` | tree/tree.go:52-54 | two such nodes encode alike exactly when they agree on name, flag and both multisets; list order does not matter |
| `Nodes.HexEncodedAlike` | tree/tree.go:62-67 | in particular nodes that list hex strings |
| `Nodes.CollisionThrough` | tree/tree.go:70-92 | through each of the bytes 0, 2, 3 alone, two different nodes encode alike |
| `Nodes.UnambiguousIffNoSeparator` | tree/tree.go:69-92 | over an alphabet of entry bytes, encodings are unambiguous exactly when it holds none of the three |
| `Nodes.CanonicalHashPins` | tree/tree.go:62-67 | with a collision-free hash, equal addresses of nodes without those bytes in their entries mean equal stored nodes |
| `Nodes.IdealHashExists` | tree/tree.go:63-67 | the assumptions made about the hash are consistent |
| `TreeStore.StoreNodeIsIdempotent` | tree/tree.go:286-320 | a node put is found under its address and passes the address check; putting it again changes nothing |
| `TreeFencing.StepKeepsCount` | tree/tree.go:494-524 | no step takes a lease's token back except an acquire of a lease without a record, and none but a release removes the record |
| `TreeFencing.FencedIffNoRestart` | tree/tree.go:498-508 | in every run in which token 1 has been superseded: no superseded token is ever accepted again exactly when the lease is not acquired while its record is gone |
| `TreeFencing.SupersededStaysFenced` | tree/tree.go:340-356 | so without a release no superseded token, whichever, is accepted again |
| `TreeFencing.ReleaseReopens` | tree/tree.go:546-553 | a run of one release and one acquire after which token 1 is accepted again |
| `Graphs.ClosurePresentIffWhole` | tree/tree.go:569-590 | everything reachable is present exactly when some set closed under children and blobs holds the root |
| `TreeBodies.StepKeepsBodies` | tree/tree.go:150-207 | every step of uploads, publications, plans, sweeps, refs and leases keeps manifests and bodies in agreement |
| `TreeBodies.PublishStepActs` | tree/tree.go:171-199 | the system's publishing step makes of the manifests what `PutBlob` does, and only for an upload with the wanted hash |
| `TreeBodies.DroppedUploadIsOwn` | tree/tree.go:200-205 | a failed or duplicate upload deletes its own body, which no manifest names, and nothing else |
| `TreeBodies.ManifestsAlwaysHaveBodies` | tree/tree.go:637-706 | with no lease discipline, in any interleaving and crash, every manifest names a stored body of its size whose hash is its key |
| `TreeBodies.LateDeleteHitsNothing` | tree/tree.go:677-681 | a body that a sweep deletes, however stale its plan, is named by no manifest then or at any later point |
| `TreeClosure.CommitKeepsStore` | tree/tree.go:658-676 | what a fenced sweep of the collector's own plan leaves is still complete and still holds every ref |
| `TreeClosure.StepKeepsClosure` | tree/tree.go:340-356 | every disciplined step keeps a complete set of nodes that holds all refs and all that the current publisher relies on |
| `TreeClosure.RefsStayIntact` | tree/tree.go:406-445 | in every interleaving of disciplined publishers and collectors, stale holders and crashes included, all that a ref reaches is present: nodes, manifests and bodies |
| `TreePresence.StepKeepsPresence` | tree/tree.go:340-356 | when publishers go by presence and put nodes only while they hold the lease, every step keeps every stored node whole, and the current collector's plans complete |
| `TreePresence.PresenceIsEnoughUnderGuard` | tree/tree.go:406-445 | so in every such interleaving, stale holders and crashes included, every ref stays intact |
| `TreeHazard.PresenceIsNotEnough` | tree/tree.go:645-649 | a run in which every session uses only what it published itself or what was there before its acquire, and one node is put by a session that has lost the lease; a later parent put and fenced swap, both in order, leave a ref that has lost a blob |
| `TreeGarbage.MarksAreLive` | tree/tree.go:571-609 | marks that hold the roots, are closed under children and were only ever reached are exactly the live nodes |
| `TreePlanning.PlannerFindsTheGarbage` | tree/tree.go:564-634 | in every run, a plan made node by node while the metadata stands still is exactly the garbage, and every reachable node loads |
| `TreePlanning.PlannerFailsOnlyUnwalkable` | tree/tree.go:575-579 | and such a call gives up only when some reachable node does not load |
| `TreeSweeping.ReturnedSweepDidAll` | tree/tree.go:650-706 | in every run, whatever runs meanwhile: when a sweep returns without being fenced off, each planned node and manifest was absent at some moment since it began, and the bodies the plan recorded are gone for ever |
| `TreeSweeping.TurnedAwayIffStale` | tree/tree.go:658-676 | a fenced sweep is turned away exactly by a token that is stale at its commit, and has then changed nothing |
| `TreeGarbage.LiveBodiesSpared` | tree/tree.go:618-629 | no body of a reachable blob is among the planned keys |
| `TreeGarbage.FreshPlanIsCurrent` | tree/tree.go:625-629 | a fresh plan records the body key of every planned manifest that has one |
| `TreeGarbage.CurrentKeys` | tree/tree.go:637-643 | for such a plan, keys looked up between the deletes are the keys it recorded |
| `TreeGarbage.RetriedSweepEndsTheSame` | tree/tree.go:648-649 | a sweep that stopped at any point and is run again with the unchanged plan ends where an undisturbed one would |
| `TreeGarbage.SweepLeavesExactlyTheLive` | tree/tree.go:562-634 | planning and sweeping a quiescent store keeps every ref's closure with its bodies, and the next plan is empty |
| `Trees.Tree.PutBlob` | tree/tree.go:150-207 | which calls succeed; a new hash gets a manifest with the given logical key, or the hash, its true size and its own fresh body, and nothing else changes; a known hash returns the manifest there is; a duplicate or a failure leaves at most its own upload behind |
| `Trees.Tree.PublishManifest` | tree/tree.go:180-206 | the first manifest of a hash wins, and only a duplicate's own upload is deleted |
| `Trees.Tree.GetBlob` | tree/tree.go:210-281 | a read from the start to the end of the blob, however the end is given, returns bytes of the recorded size with the asked hash or fails; on matching stores exactly the valid ranges are served |
| `TreeReads.StepKeepsFixed` | tree/tree.go:150-160 | a stored body never changes, and a key once used is never written again |
| `TreeReads.ReadsStayTrue` | tree/tree.go:229-251 | in every run, with no lease discipline: a reader that took the manifest at one moment and opens its body at any later one finds the body the manifest named, or none |
| `Trees.Tree.PutNode` | tree/tree.go:286-301 | the node is stored with both lists sorted under the hash of its encoding, exactly when its record is at most 1 MiB |
| `Trees.Tree.LoadNode` | tree/tree.go:304-320 | a node is returned exactly when it is stored and its encoding hashes to the ID; otherwise the error says which of the two fails |
| `Trees.Tree.CompareAndSwapRefFenced` | tree/tree.go:406-445 | it succeeds exactly for a current token, a stored node and the expected version, then moves that one ref to version + 1; otherwise nothing changes |
| `Trees.Tree.DeleteRefFenced` | tree/tree.go:469-490 | it succeeds exactly for a current token and version, then removes that one ref; otherwise nothing changes |
| `Trees.Tree.AcquireLease` | tree/tree.go:492-524 | the new token is the next one after the recorded one, or 1 |
| `Trees.Tree.ReleaseLease` | tree/tree.go:546-553 | only the current token removes the record, and with it the count |
| `Trees.Tree.Walk` | tree/tree.go:571-590 | the recursion ends on any stored graph, marks only what it reaches and accounts for all of it, and fails only when something reached cannot be loaded |
| `Trees.Tree.MarkRefs` | tree/tree.go:591-602 | after the walks from all refs the marks hold the roots and account for everything marked |
| `Trees.Tree.PlanGC` | tree/tree.go:562-634 | there is a plan exactly when every reachable node loads; it lists, in order, exactly the stored nodes and manifests no ref reaches, with the body keys the manifests record |
| `Trees.Tree.SweepNodes` | tree/tree.go:688-692 | the unfenced sweep's first loop deletes the planned nodes, or some of them when a delete fails |
| `Trees.Tree.SweepBlobs` | tree/tree.go:693-704 | its second loop deletes each manifest before its body, and stops at a failing delete |
| `Trees.Tree.SweepGC` | tree/tree.go:685-706 | a completed sweep removes exactly the planned nodes, manifests and their bodies, looked up when the plan has no key; a failed one a part that a retry can finish |
| `Trees.Tree.SweepGCFenced` | tree/tree.go:650-683 | the metadata is that of the fenced transaction: nothing changes under a stale token, all planned metadata goes at once under the current one; then the bodies |
| `Trees.Tree.Collect` | tree/tree.go:562-706 | plan, sweeps that stop at any number of failing deletes, a last sweep with the unchanged plan, plan again: what is left is what refs reach, bodies still match and the second plan is empty |
| `Trees.Tree.CollectFenced` | tree/tree.go:648-683 | the same with fenced sweeps under the current token; nothing changes under a stale one |
| `Jobs.ClaimOrder` | queue/queue.go:333-341 | the claim order is total, and only jobs with the same ID tie |
| `Jobs.UnclaimedUnchanged` | queue/queue.go:315-359 | successive claims change only the jobs they claim |
| `Jobs.ClaimsAscend` | queue/queue.go:315-359 | with a clock that does not go back, successive claims come out strictly ascending in (available, created, ID), even as delayed jobs become visible |
| `Jobs.DrainTakesEachOnce` | queue/queue.go:315-359 | draining at one moment yields every eligible job exactly once and no other |
| `QueueSystem.CompleteStepMarks` | queue/queue.go:430-464 | the completing step of the system is the first transaction of `Complete` |
| `QueueSystem.HolderStepActs` | queue/queue.go:378-518 | every step of a holder in the system makes of the records what the method of the handle does |
| `QueuePayloads.StepKeepsSafe` | queue/queue.go:430-485 | every step of the queue keeps unfinished records with intact payloads, and no call in flight can delete one of them |
| `QueuePayloads.RunStaysSafe` | queue/queue.go:223-288 | so does every run from the empty queue |
| `QueuePayloads.PayloadsOutliveJobs` | queue/queue.go:612-675 | at every point of every run, pending, claimed and dead records name stored bodies of their size and digest, and a record goes only completed and after its own body |
| `QueueCleanup.FinishedCleanupLeavesNothing` | queue/queue.go:464-484 | in every run, after a cleanup has finished no record ever names its payload again and nothing is ever stored under its key |
| `QueueLeases.StaleHandleIsInert` | queue/queue.go:378-408 | a handle changes only its own record, and only while token, incarnation and lease are all current |
| `QueueLeases.StaleCleanupIsInert` | queue/queue.go:655-672 | a cleanup removes only the completed record of the incarnation it was started for, also when the job ID was used again |
| `QueueLeases.OneHolder` | queue/queue.go:378-398 | at most one handle of a job is accepted at any time |
| `QueueLeases.LeasesNeverOverlap` | queue/queue.go:306-364 | in every run all leases ever granted for one job ID have disjoint windows, renewals included |
| `QueueLeases.AcceptedInsideWindow` | queue/queue.go:378-398 | and a handle is accepted only inside the window of its own lease |
| `QueueLeases.DeliveriesAreBounded` | queue/queue.go:490-508 | in every run the steps that claim an incarnation are at most max(1, limit) * (1 + the steps that requeue it) |
| `QueueLeases.AttemptsAreBounded` | queue/queue.go:344-349 | in every run claimed records have 1 to max(1, limit) attempts, pending ones fewer than max(1, limit) |
| `QueueLeases.EnqueueWinnersAreUnique` | queue/queue.go:267-288 | in every run, however enqueues of one ID race, the calls that report `created` exceed the removals of its record by exactly one while it exists, and equal them otherwise |
| `QueueLeases.WinnerIsKept` | queue/queue.go:235-288 | from the call that reports `created` until a record of the ID is removed, the job is there with that call's payload, size, digest and limit |
| `QueueLeases.LoserDeletesOwnUpload` | queue/queue.go:280-287 | a losing enqueue deletes its own, never published upload and nothing else |
| `Queues.Queue.EnqueueReader` | queue/queue.go:223-288 | which ID: the given one, else one from the idempotency key, else a new one; which enqueues create; every field of a created job, which names a fresh key holding the body; otherwise no record and no other body changes |
| `Queues.IdempotencyKeysNameJobs` | queue/queue.go:227-234 | within a queue two idempotency keys name the same job exactly when they are equal |
| `Queues.Queue.Upload` | queue/queue.go:244-266 | the payload is stored under a key never used, and the record names its size and digest |
| `Queues.Queue.Publish` | queue/queue.go:267-288 | the publishing transaction creates the record only when there is none; a loser deletes its own upload, or fails to, and nothing else |
| `Queues.Queue.Claim` | queue/queue.go:306-364 | no job exactly when none is pending with its time come; otherwise, of those, the one earliest available, then earliest created, then of the smallest ID gets one more attempt and a lease under a token no record carries, and nothing else of it changes |
| `Queues.Queue.RequeueDead` | queue/queue.go:545-576 | exactly dead jobs go back to pending, with no attempts, available at once |
| `Queues.Queue.ReapLeases` | queue/queue.go:614-648 | a claimed job whose lease is over becomes pending at once while it has attempts left, else dead, and loses its lease; no other record changes; exactly the completed records are returned |
| `Queues.Queue.CleanUp` | queue/queue.go:655-674 | whatever the records have become since they were seen: payloads of the seen ones are deleted, and just those records go that are still the completed ones seen |
| `Queues.Queue.ReapExpired` | queue/queue.go:612-675 | both phases with nothing between, for every set of failing payload deletes: which records stay, what the expired ones become, and which payloads go |
| `Queues.Queue.RemoveRecord` | queue/queue.go:468-484 | only the record completed under this token is removed; a missing one is no error |
| `Queues.Handle.Check` | queue/queue.go:378-398 | the record is handed out exactly to the holder of a running lease, otherwise the error says why |
| `Queues.Handle.Renew` | queue/queue.go:411-425 | record and handle agree on the new end of the lease, or neither changes |
| `Queues.Handle.Retry` | queue/queue.go:490-508 | dead and `true` exactly when the attempts are used up, else pending after the delay; the lease and its token go, all else stays |
| `Queues.Handle.Bury` | queue/queue.go:511-518 | the holder moves its job to the dead letters, anyone else changes nothing |
| `Queues.Handle.Complete` | queue/queue.go:430-485 | when it succeeds and what it then removes; a failed payload delete leaves a completed record from which a second call resumes |
| `Lru.UserKeyOfFullKey` | lru/lru.go:130-139 | a scan recovers every user key from its sharded key, so distinct keys never collide |
| `Lru.Store.SetEntry` | lru/lru.go:233-265 | the stored record: next revision, the new size, and which times are taken, replaced or kept |
| `Lru.Store.TouchEntry` | lru/lru.go:269-293 | a stored entry gets the new access time and the next revision, and nothing else changes |
| `Lru.UntimedGoesFirst` | lru/lru.go:239-245 | an entry set without an access time is among the victims as soon as any entry with a later access time is, though the documentation says it counts as accessed now |
| `Lru.CutFront` | lru/lru.go:369-386 | the running totals stop at the shortest front part whose removal leaves no more bytes and no more items than the caps allow |
| `Lru.Victims` | lru/lru.go:361-386 | victims are the shortest such front part in eviction order: each was accessed before every entry that stays, ties going by key |
| `Lru.CutIsUnique` | lru/lru.go:359-360 | there is only one such cut |
| `Lru.VictimsIgnoreOrder` | lru/lru.go:57-59 | the selection depends on which entries there are, not on the order they come in |
| `Lru.EvictAllDeletesKeys` | lru/lru.go:402-430 | without other writers any schedule of the workers, repetitions included, deletes exactly the victims' keys |
| `Lru.EveryScheduleEndsUnderCaps` | lru/lru.go:388-449 | so every schedule ends in one and the same state, which is under both caps |
| `Lru.FreshEntryIsLostIff` | lru/lru.go:411-424 | in every run an entry set or touched after the scan is lost to the evictor exactly when its key was deleted in between and the stored revision and access time are the scanned ones |
| `Lru.EvictedAsScanned` | lru/lru.go:417-424 | while its key is not deleted, an entry that is evicted is exactly the one scanned |
| `Lru.RecreatedEntryIsEvicted` | lru/lru.go:417-424 | a run of set, scan, delete, set in which the new entry is evicted, whatever its size |
| `Lru.Store.ScanAll` | lru/lru.go:310-329 | every record is listed exactly once |
| `Lru.Store.EvictOnce` | lru/lru.go:389-449 | whatever the order in which the workers commit, one pass deletes exactly the victims of what it scanned whose transactions do not fail; whatever goes was accessed before all that stays, except for failures; when none fails it ends under both caps |
| `Lru.Store.WorkOff` | lru/lru.go:402-448 | the workers delete exactly the victims whose transactions do not fail, and an error is reported exactly when one does |
| `Cas.Store.CreateRecord` | cas/cas.go:176-223 | it succeeds exactly on a fresh key, or on a tombstone when resurrection is allowed, with the next revision and the first creation time; otherwise the error says why and nothing changes |
| `Cas.Store.CompareAndSwap` | cas/cas.go:262-297 | it succeeds exactly on a live record of the expected revision; an identical value writes nothing, another one is stored under the next revision |
| `Cas.Store.UpdateRecord` | cas/cas.go:303-342 | it succeeds exactly on a live record for which the function returns a value that fits; an identical value writes nothing, another one is stored under the next revision |
| `Cas.Store.DeleteRecord` | cas/cas.go:346-376 | a live record of the expected revision, or any for zero, becomes a tombstone |
| `Cas.Store.List` | cas/cas.go:399-434 | a page shows, in key order, only stored records with the prefix, behind StartAfter, live or asked for; whatever else was asked for lies behind the key it names to resume at, and it names one only if something does |
| `Cas.PagesCoverTheListing` | cas/cas.go:391-396 | a page and the listing resumed after it make up the whole listing |
| `Cas.PagingLosesNothing` | cas/cas.go:391-434 | following the pages with any limit shows every matching record exactly once in key order |
| `Cas.PagesAscend` | cas/cas.go:391-434 | whatever is written between the pages, keys strictly ascend over all of them: none is shown twice |
| `Cas.SteadyKeyIsShown` | cas/cas.go:391-434 | a key that is there to be shown whenever a page is taken is on one, once the last page says it is the last |
| `Cas.PagingInRuns` | cas/cas.go:391-434 | both, for pages taken at any moments of any run, with writes and collections between them |
| `Cas.Store.GC` | cas/cas.go:446-496 | exactly the tombstones deleted before the retention go, and the count is how many went |
| `Cas.Store.RemoveAll` | cas/cas.go:464-495 | the loop removes every key its scan found and counts them |
| `Cas.Store.RemoveExpired` | cas/cas.go:468-487 | the expiry is checked again inside the deleting transaction |
| `Cas.RevisionNamesOneRecord` | cas/cas.go:176-376 | between collections the n-th write of a key has revision n, so each revision names one value and state |
| `Cas.SwapProvesUntouched` | cas/cas.go:260-297 | after a swap that succeeds on a revision read earlier: every state in between held the record that was read exactly when no collector removed the key in between |
| `Cas.CollectorsCountExactly` | cas/cas.go:464-496 | in every run a collector's result is the number of its steps that removed a record, each a tombstone older than its cutoff at that moment |
| `Cas.FinishedCollectorVisitedAll` | cas/cas.go:464-496 | in every run, when a collector has no key left, each key that was an old tombstone when it began was gone, or no longer that, at some moment since |
| `Cas.OnlyCollectorsRemove` | cas/cas.go:475-487 | records leave the store in no other way |
| `Cas.RevisionsRestartAfterCollection` | cas/cas.go:204-211 | a run of create, delete, collect, create after which a swap on the first record's revision succeeds on another value |

## Left out

- JSON encoding: records are values, and names are taken to survive it. Go's encoder replaces invalid UTF-8, so a stored
  node whose name is not valid UTF-8 would not load again.
- The retry loops on conflicts, context cancellation, and commits of unknown outcome.
- The AWS client, its error mapping and configuration, and the SlateDB library: its iterator is the stored keys in range,
  in order, and an inverted range is empty.
- SHA-256, MD5, FNV and Base64url themselves: hashes are parameters, encoded keys are the keys.
- Background loops and shutdown: `StartEvictor`, `StartMaintenance`, `Close`. Their bodies are modelled.
- Integer overflow, and an empty key in the KV when paging by StartAfter.
- Update in place of the caller's slices: `PutNode` and `victims` sort theirs; here sorting yields a new value.
- The unfenced `CompareAndSwapRef` and releases of the shared lease within disciplined runs; both are steps of the system
  and are covered by the results without lease discipline.
- Sweeping plans that no `PlanGC` call made.
- The lease check by a plain read, `CheckFence`, and the reads `GetRef`, `StatBlob`, `OpenPayload`, `ListDead`, `Len` and
  `Stats`.
- Callbacks and updaters are functions of what they are shown; their own side effects are not modelled.
- The value that `lru.Get` returns when its touch fails.
- Trees.Tree.PutBlob: a failing `Stat` of a staged body of unknown size is not modelled, and neither is the manifest
  returned when a publishing attempt that saw a duplicate conflicts and runs again.
- Nothing was executed: every statement above is about the model.
