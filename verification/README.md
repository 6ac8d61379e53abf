# Trail: a verified model

Trail is an event journal.  Programs log typed events; an asynchronous writer batches them to a
sink; an ingestor moves batches from a broker into PostgreSQL or ClickHouse; a retention engine
archives, deletes and restores old events and collects the payload objects they link.  This project
models those five parts in Dafny and proves what each of them promises over every run.

Check everything with `dafny verify dfyconfig.toml`.

| files | part |
|---|---|
| `Writer`, `WriterSafety`, `WriterShutdown`, `WriterCounters` | the asynchronous writer as a state machine over atomics and channels |
| `Objects`, `Policy`, `Protocol`, `ProtocolNoLoss`, `ProtocolGc`, `ProtocolRefs` | archive, delete, collect and restore as one crash-prone multi-store protocol |
| `Restore`, `RestoreRuns`, `PageRuns`, `Crossing`, `Samples` | whole restores and pages as runs of that protocol, crossing commands, and concrete runs |
| `Keyset`, `RetentionPage`, `Collection`, `RetentionEngine` | the retention run that drives that protocol page by page, and its concurrent payload workers |
| `SummaryStates`, `Summaries`, `SummaryTwins`, `SummaryStore` | ClickHouse flow and execution summaries and their staged rebuild |
| `Ingestor` | grouping, writing, acknowledging, dead-lettering |
| `Digits`, `IdCodec`, `TextCodec`, `Fields`, `Wire`, `Normalize` | identifiers, fields, envelope, payload references |
| `Capture`, `Spooler` | HTTP body capture and the payload spooler |

Concurrent and crash-prone parts are state machines: a `Step` type, `Enabled`, `Next`, and lemmas over
every sequence of enabled steps.  A call that fails without effect is no step, a call that fails after
its effect is a step followed by an error return, and `Abort` or `Crash` may follow any step.
Sequential code is methods and classes.  A class with a field `reliable` lets every external call fail
when the field is false, and its contracts say what must succeed when it is true.

## What is assumed

- SHA-256 is injective, JSON and gzip are inverse pairs: documents are kept as the values they encode and
  a digest as the content it is a digest of.  Size caps on manifest and line reads are not reached.
- Object keys are structured (prefix, digest, compression) or foreign names; the pair of store and key
  stands for the two strings joined by a zero byte.
- The archive store is separate from the active stores, and one retention process runs at a time.
- An event carries at most one retention-class field: normalisation takes the last, the scan the first.
- Reference integrity (`ProtocolRefs`) needs ordered use, and `ProtocolRefs.StepKeepsRefsExactly` shows that it
  needs no less: ingested events name stored objects by the key `Put` returns and none that a collection has
  condemned, a restore merges no link to a condemned object, and a collection deletes no object that a running
  restore links and has already copied.  The code does not enforce this; `Samples.CrossingHappens` is a run in
  which it fails.
- Summaries (`Summaries`) need that copies of an event agree, and that no rebuild task beyond the thousand a
  reconcile reads shares its identity with one it reads; `SummaryTwins.RemoveSafeExactly` shows that the second
  is exact.  Disjoint flow and execution identifiers are enough.  An insert block and its materialized views are
  one step.
- `UnixNano` of a retain-until time outside the int64 range is undefined in Go's documentation; the model wraps
  it, as the implementation does (`Fields.RefRoundTrip`).

## Where code and expectation differ

- An archive verifies each object against the first link to it only.  A later link to the same store and key
  with another checksum or size is archived, and its event deleted, without a copy that matches it
  (`ProtocolNoLoss.OwnCopyExactly`, both directions; `Samples.SecondLinkUnverified` is a run).  References as
  `Put` returns them never disagree (`ProtocolNoLoss.PutReferencesAgree`).
- Restore compares checksum and size, not the key, so an object that was written under another prefix is
  restored to a different key than its events link (`ProtocolRefs.RestoreHitsLinkedKey` for one payload,
  `RestoreRuns.WholeRestore` for a whole archive, both directions; `Samples.ChangedPrefixDangles` is a run).
- Rebuild tasks are removed by identity without their kind (`SummaryTwins.RemoveSafeExactly`, both directions;
  `SummaryTwins.SharedIdentityGoesStale` is a run).
- A payload that policy keeps forever for one event is still staged when another event of the page gives it
  an expiry (`ProtocolGc.StagedIffGivenExpiry`).
- An event whose payload fields name neither store nor key nor error is normalised without that payload
  (`Normalize.EventRoundTrip` states which are listed).

## Model

| member | source | states |
|---|---|---|
| Writer.NormalizeConfig | config.go:39-62 | accepts exactly a named service with a sink, no negative size or interval and a known policy; accepted numbers are positive and the given ones where not zero |
| WriterSafety.RunKeepsGenInv | trail.go:157-219 | every step of the writer goroutine keeps: what the sink saw, the unsent batch and the queue are the accepted events in order |
| WriterSafety.LogKeepsWake | trail.go:110-142 | no producer step loses the wake-up a blocked writer waits for |
| WriterSafety.StepPreserves | trail.go:35-219 | every step of every goroutine keeps the whole invariant |
| WriterSafety.DeliveredExactlyOnce | trail.go:157-219 | in every run a sink gets a prefix of the accepted events, once each, in order, in batches of 1..batchSize; when done is closed it has all of them and was closed once |
| WriterSafety.DoneIsFinal | trail.go:144-219 | after done is closed the queue is never sent to and the sink never called, across later Init and Close |
| WriterSafety.OneLiveWriter | trail.go:35-60 | at most one writer generation is running in any reachable state |
| WriterShutdown.MeasureDecreases | trail.go:110-219 | after stop is closed no step raises the shutdown measure and every step of the writer or its producers lowers it |
| WriterShutdown.ShutdownProgress | trail.go:176-204 | until the writer is done one of those steps is enabled, also when it is blocked on wake |
| WriterShutdown.ShutdownIsBounded | trail.go:144-155 | so in every interleaving Close waits for a bounded number of them |
| WriterShutdown.CloseCanReturn | trail.go:144-155 | from any state with stop closed Close can return within the measure plus one steps |
| WriterCounters.CountersAccount | trail.go:110-219 | modulo 2^64 buffered counts queued, unsettled and reserved events, and written, dropped and open calls add up to the Log calls |
| WriterCounters.BufferedCovers | trail.go:110-219 | what a step takes off buffered is there: no underflow |
| WriterCounters.QuietCounters | stats.go:5-28 | with no writer and no call in progress buffered is zero and written plus dropped is the number of Log calls |
| Objects.PutOnlyAdds | payload/filesystem/filesystem.go:57-102 | storing under the content's digest overwrites nothing and reads back |
| Policy.EventExpiryOrder | retention/retention.go:371-388 | a named class decides alone, then the first matching policy, then the default |
| Policy.PayloadExpiryOrder | retention/retention.go:389-409 | an explicit time, then the class, then the first matching policy, then the default |
| Policy.PayloadExpiryAfterZero | retention/retention.go:389-409 | no payload expiry is at or before the zero time, so an absent map entry never hides one |
| Policy.PageTimesCover | retention/retention.go:265-272 | the map built for a page holds at least every expiry of every payload of its eligible events |
| Policy.PageTimesExact | retention/retention.go:265-272 | and each entry is the expiry of some payload of the page |
| ProtocolNoLoss.BundleComplete | archive/archive.go:82-166 | when Write has visited all links, its bundle reads back: manifest, events, and a copy of every linked object verified against the first link to it |
| ProtocolNoLoss.CopyKeepsWriting | archive/archive.go:108-147 | each turn of Write's loop keeps that the entries are verified copies of first links and cover every visited object |
| ProtocolNoLoss.OwnCopyExactly | archive/archive.go:111-147 | a link of a complete bundle has a copy matching its own checksum and size if and only if it agrees with the first link of the batch to the same store and key |
| ProtocolNoLoss.CoverageMeansMapped | storage/postgres/retention.go:130-136 | a coverage count equal to the batch length means every event is mapped to that archive |
| ProtocolNoLoss.MappedMeansCoverage | storage/postgres/retention.go:130-136 | and conversely for a batch without repetitions |
| ProtocolNoLoss.MapCovers | storage/postgres/retention.go:172-200 | after RecordArchive the coverage check of the page succeeds |
| ProtocolNoLoss.DeletedIsHeld | storage/postgres/retention.go:86-145 | an event about to be deleted is in the catalogued archive it is mapped to |
| ProtocolNoLoss.StepKeeps | retention/retention.go:275-326 | every protocol step, including a crash, keeps the no-loss invariant |
| ProtocolNoLoss.NothingIsLost | retention/retention.go:227-342 | in every run every record version ever stored is live or given back by a catalogued archive, every event is live or mapped to an archive holding its last live version, and each of its links has its own verified copy there exactly when it agrees with the archive's first link to the object |
| ProtocolNoLoss.EveryLinkIsCovered | retention/retention.go:227-342 | when stored references to one object agree, every link of every archived record has its own verified copy in every reachable state |
| ProtocolNoLoss.PutReferencesAgree | payload/filesystem/filesystem.go:57-102 | references as Put returns them always agree |
| Samples.SecondLinkUnverified | archive/archive.go:111-147 | a run from the empty state that archives and deletes an event one of whose links has no matching copy |
| ProtocolGc.StagesEveryExpiry | storage/postgres/retention.go:102-121 | whatever expiry a deleted event gives a payload, its deletion stages at least that |
| ProtocolGc.StagedIffGivenExpiry | storage/clickhouse/retention.go:114-168 | an object is staged if and only if some event of the page gives it an expiry |
| ProtocolGc.StageKeepsDue | storage/postgres/retention.go:102-121 | staging keeps the larger of the old and new eligible time |
| ProtocolGc.ExpiriesStayPromised | retention/retention.go:415-448 | in every reachable state each expiry of a deleted event has passed or a candidate row waits at least that long |
| ProtocolGc.OnlyRemoveDeletes | retention/retention.go:502-539 | no other step takes an object out of an active store |
| ProtocolGc.DeletionWaitsForExpiry | retention/retention.go:502-539 | an object disappears only after every expiry it was given and after the grace period since it was first staged, only if its row names an archive, and only if its key is its checksum |
| ProtocolRefs.RestoreHitsLinkedKey | archive/archive.go:274-305 | a restored payload lands on the linked key if and only if that is the key its store gives those bytes |
| ProtocolRefs.RemoveKeepsRefs | retention/retention.go:502-531 | deleting an object keeps reference integrity if and only if no running restore links it and has already copied it |
| ProtocolRefs.MergeKeeps | archive/archive.go:308-311 | merging a chunk keeps it if and only if none of the new events links a condemned object |
| ProtocolRefs.IngestKeepsRefs | storage/postgres/store.go:62-101 | inserting a batch keeps it if and only if the new events name present, uncondemned objects by the key Put gives them |
| ProtocolRefs.StepKeepsRefsExactly | archive/archive.go:264-311 | a step of any command keeps reference integrity if and only if it meets those guards |
| ProtocolRefs.LiveReferencesResolve | retention/retention.go:445-457 | in every run whose steps meet the guards each payload of each live event opens and has the linked checksum |
| Crossing.CrossingDangles | archive/archive.go:264-311 | deleting a condemned payload and then merging leaves a live event without it |
| Crossing.CrossingIsOpen | retention/retention.go:502-531 | from every reachable state with an archived event one of whose payloads is ready for collection, an overlapping restore and collection do that |
| Samples.SampleRun | retention/retention.go:275-326 | a concrete run (put, ingest, tick, archive, delete, tick) reaches such a state |
| Samples.CrossingHappens | archive/archive.go:264-311 | so there is a run from the empty state that ends with a live event whose payload is gone |
| PageRuns.PageRun | retention/retention.go:275-326 | from every state that meets the invariant a page of expired events whose objects are there can be archived, staged and deleted, and exactly that changes |
| Keyset.ListingFacts | storage/postgres/retention.go:21-84 | the scan order lists exactly the live rows, strictly ascending by time and identifier |
| Keyset.ScanContinues | storage/postgres/retention.go:21-84 | deleting rows at or before the cursor does not change what follows it |
| Keyset.PageContinues | storage/postgres/retention.go:21-84 | so a page read after k rows is the next stretch of the original listing, with the right cursor and HasMore |
| RetentionPage.AddTimes | retention/retention.go:265-272 | the inner payload loop computes the page's expiry map |
| RetentionPage.Classify | retention/retention.go:253-274 | the page loop finds exactly the expired events in order, their expiry map and the matched count |
| RetentionPage.SameArchiveEvents | retention/retention.go:344-363 | accepts exactly two lists without repetitions that name the same events |
| RetentionPage.SameTextsMeanSameIds | retention/retention.go:344-363 | on stored identifiers that is equality of duplicate-free ID sets |
| RetentionEngine.Engine.Export | retention/retention.go:284-294 | whatever rows the store returns, in any order, a page is exported only with exactly its events |
| RetentionEngine.Engine.CopyPayloads | archive/archive.go:108-147 | copies each object once; succeeds when every payload is readable and nothing fails |
| RetentionEngine.Engine.WriteBundle | archive/archive.go:82-166 | events, payloads, manifest in that order; only the archive store and the engine position change |
| RetentionEngine.Engine.RecordArchive | storage/postgres/retention.go:172-200 | catalogues and maps the page so that the coverage check succeeds |
| RetentionEngine.Engine.DeleteEvents | storage/postgres/retention.go:86-145 | deletes exactly the page or nothing, and the page when it is covered and nothing fails |
| RetentionEngine.Engine.ArchiveAndDelete | retention/retention.go:275-326 | one page of a run: all or none of its events leave, and all do when payloads are readable and nothing fails |
| RetentionEngine.Engine.Sweep | retention/retention.go:227-330 | a completed scan deletes exactly the expired among the first MaxEvents events, whatever the page size; a dry run takes no step |
| RetentionEngine.Engine.Run | retention/retention.go:227-342 | every effect is a protocol step; only expired events go; a completed scan is the plain filter; a dry run changes nothing and counts the same; payload counts are bounded |
| RetentionEngine.Engine.ListReady | storage/postgres/retention.go:263-282 | lists distinct ready rows in the order of candidate time, store and key, and leaves out a ready row only when the limit is reached and it does not come before a listed one |
| Collection.MoveSound | retention/retention.go:502-539 | each store call of processCandidate is enabled where it is made, touches one object and its row, and leaves them as the next position says; at the end the row is gone, kept or deferred, and gone or deferred when nothing fails |
| Collection.PoolMove | retention/retention.go:445-488 | so a call of one worker leaves every other worker's candidate as it was |
| Collection.TallyMove | retention/retention.go:454-479 | every step of every worker keeps the counters in balance with the candidates not yet counted |
| Collection.SomeMove | retention/retention.go:480-492 | until all candidates are counted some worker can move |
| Collection.EveryInterleaving | retention/retention.go:445-495 | in every interleaving of the workers, with any calls failing, deletions never exceed orphans, a page ends after at most four steps per candidate, and the counts, errors and reclaimed bytes are then those of the page |
| RetentionEngine.Engine.CollectPage | retention/retention.go:415-500 | for every interleaving of concurrent workers over the stores the counts are referenced, orphaned and unknown by kind and add up to the page, errors are the unknown and the undeleted, and every row is settled |
| RetentionEngine.Engine.CollectPayloads | retention/retention.go:415-500 | terminates, handles at most MaxPayloads, deletes at most the orphaned, and all of them when it succeeds or nothing fails |
| RetentionEngine.FilterArchived | retention/retention.go:429-437 | the in-place filter keeps exactly the archived candidates in order |
| RetentionEngine.AllArchived | storage/postgres/retention.go:263-282 | the listing query already excludes candidates without an archive |
| Restore.ReadEvents | archive/archive.go:199-248 | succeeds exactly on valid bounds over an intact archive and returns the chunk and whether it is the last |
| Restore.ChunksPartition | archive/archive.go:199-248 | following Next with any limits terminates and partitions the archived sequence into non-empty chunks |
| Restore.CoveringChunksRestore | storage/postgres/retention.go:253-261 | any repeated, overlapping or reordered chunks that cover the archive reach the same event map and change no live event |
| Restore.ReadsRestore | archive/archive.go:252-317 | so do reads at any offsets and limits that reach every index |
| Restore.FollowRestores | archive/archive.go:252-317 | and following Next to the end |
| Restore.RestoreUndoesDelete | archive/archive.go:252-317 | archive, delete, chunked restore is the identity on the event map |
| Restore.RestoreSucceeds | archive/archive.go:252-317 | a restore of any chunk of any catalogued archive can run to its end, merges exactly that chunk, and adds exactly the objects its linked entries are written to |
| Restore.EventComesBack | archive/archive.go:252-317 | from every reachable state every event ever stored that is not live can be brought back by one restore call, in its last live version, changing nothing else |
| Restore.RestoreChunk | archive/archive.go:252-317 | merges exactly the chunk and reports count, Next and Complete; must succeed on every catalogued archive when nothing fails |
| RestoreRuns.WholeRestore | archive/archive.go:252-317 | from every reachable state following Next with any limits can run to its end; then the live events are the old ones and the archived ones that were not live, and an object is present if and only if it was before or is where the store now puts the bytes of a first link of the archive |
| RestoreRuns.CanonicalComes | archive/archive.go:274-305 | an object whose first link has the key its store gives it now comes back |
| RestoreRuns.RestoredEventsOpen | archive/archive.go:252-317 | after a run that meets the guards, restoring an archive none of whose objects is condemned makes every archived event live and leaves every payload of every live event readable with the linked checksum |
| Samples.ChangedPrefixDangles | archive/archive.go:274-305 | a run from the empty state in which the key prefix was changed and a whole restore leaves a live event whose object is missing |
| SummaryStates.DescribesJoin | storage/clickhouse/migrations.go:68-148 | the merge of two aggregate states describes the union of the rows they describe |
| SummaryStates.DescribesUnique | storage/clickhouse/migrations.go:68-148 | on consistent rows a description determines the state |
| SummaryStates.AggregateDescribes | storage/clickhouse/migrations.go:88-147 | the view's aggregate is the minimum, maximum, distinct identifiers and extreme values of its rows |
| SummaryStates.AnyMergingAgrees | storage/clickhouse/query.go:17-18 | any split into insert blocks, merge order and duplicate delivery gives the direct aggregate |
| SummaryStates.MergeLaws | storage/clickhouse/retention.go:411-425 | merging is idempotent, commutative and associative on states of consistent rows |
| SummaryStates.OrderMattersExactly | storage/clickhouse/migrations.go:68-148 | two rows merge differently in different orders exactly when they share time and identifier and differ in value |
| Summaries.GroupPartsGather | storage/clickhouse/migrations.go:88-147 | a view adds, for each group, exactly the rows of the block in it |
| Summaries.StatementKeeps | storage/clickhouse/retention.go:380-430 | each rebuild statement keeps the crash invariant, with inserts in between |
| Summaries.DeleteKeeps | storage/clickhouse/retention.go:169-178 | deleting staged events keeps it |
| SummaryTwins.RemoveSafeExactly | storage/clickhouse/retention.go:344-377 | removing the tasks read from a staged set is safe in every state that meets the invariant if and only if no staged task outside the first thousand in (kind, identity) order shares an identity with one inside |
| SummaryTwins.TwinIsNotRebuilt | storage/clickhouse/retention.go:344-377 | for every staged set with such a task there is a run from the empty database that leaves its summary stale at the removal |
| Summaries.UnreadTwinIsExecution | storage/clickhouse/retention.go:344-377 | and it is always an execution, because flows are read first |
| Summaries.SeparateHasNoTwin | storage/clickhouse/retention.go:377-377 | there is no such task when flow and execution identifiers are disjoint |
| Summaries.FewTasksHaveNoTwin | storage/clickhouse/retention.go:344-377 | or when at most a thousand tasks are staged |
| SummaryTwins.SharedIdentityGoesStale | storage/clickhouse/retention.go:344-377 | a concrete run: flows 1 to 1000 and execution 1 are staged, the flows are read and rebuilt, and execution 1 is removed unread and stays stale |
| Summaries.SeparateRunIsGuarded | storage/clickhouse/retention.go:344-377 | every run with disjoint identifiers meets the condition at each removal |
| Summaries.SummariesAgree | storage/clickhouse/retention.go:310-430 | in every state of a run that meets the condition, whatever crashed, a flow or execution that is not staged has merged summaries equal to the aggregate of its live events |
| Summaries.ReconcilesWorkOff | storage/clickhouse/retention.go:343-378 | each finished reconcile works off the first thousand tasks, whatever is interleaved |
| Summaries.ReconcilesRestoreAgreement | storage/clickhouse/retention.go:343-378 | after enough of them nothing is staged and everything agrees |
| SummaryStore.StageTasks | storage/clickhouse/retention.go:310-341 | stages each non-zero flow and execution of the events exactly once |
| SummaryStore.Tables.Rebuild | storage/clickhouse/retention.go:380-430 | runs the four statements in order; changes only summary rows |
| SummaryStore.Tables.Reconcile | storage/clickhouse/retention.go:343-378 | removes up to a thousand tasks after rebuilding them, or leaves all staged |
| SummaryStore.Tables.DeleteEvents | storage/clickhouse/retention.go:169-178 | stage, delete, reconcile: every outcome keeps the crash invariant |
| Ingestor.Normalized | ingestor/ingestor.go:68-99 | every accepted configuration has positive bounds |
| Ingestor.GroupingIsBounded | ingestor/ingestor.go:117-142 | the groups concatenate to the decoded messages, are non-empty, within MaxBytes, within MaxEvents when of two or more, and closed only because the next message did not fit |
| Ingestor.GroupingIsUnique | ingestor/ingestor.go:117-142 | and no other grouping does that |
| Ingestor.StoreIsUnion | storage/postgres/store.go:62-101 | modulo delivery metadata the store is each written message once if and only if written messages never disagree |
| Ingestor.SameMessagesSameStore | storage/postgres/store.go:62-101 | two histories that wrote the same messages stored the same events, whatever the order, grouping and redelivery |
| Ingestor.Engine.DeadLetter | ingestor/ingestor.go:228-243 | acknowledges only what is in the dead-letter queue |
| Ingestor.Engine.Write | ingestor/ingestor.go:187-213 | inserts the whole group or nothing and acknowledges only after the write |
| Ingestor.Engine.Reject | ingestor/ingestor.go:215-226 | acknowledges only messages delivered too often, all of them when nothing fails |
| Ingestor.Engine.Fetch | ingestor/ingestor.go:117-142 | hands exactly the greedy groups to write under every pattern of failures; handles every message when nothing fails |
| Ingestor.Engine.Run | ingestor/ingestor.go:108-148 | over any fetches with redelivery and failures an acknowledged message has its events stored or its bytes dead-lettered |
| Digits.LexOrderIsValueOrder | id.go:58-88 | fixed-length digit strings compare as the numbers they denote |
| IdCodec.CrockfordValue | id.go:90-103 | accepts exactly the alphabet in either case and gives the position |
| IdCodec.EncodeId | id.go:58-69 | the loop computes the 26 base-32 digits |
| IdCodec.DecodeId | id.go:71-88 | the loop accepts exactly 26 alphabet characters with first digit at most 7 and gives the 16 bytes |
| IdCodec.DecodeEncode | id.go:58-88 | decoding inverts encoding on all 128-bit values |
| IdCodec.EncodeDecode | id.go:58-88 | re-encoding accepted text gives its lower-case form |
| IdCodec.EncodePreservesOrder | id.go:58-69 | encoding preserves lexicographic order |
| IdCodec.Generator.NextId | id.go:29-48 | counts up and fails exactly when 2^48 is reached |
| IdCodec.GeneratedIdsDiffer | id.go:29-48 | generated identifiers are distinct and not zero |
| TextCodec.ChecksumText | payload/payload.go:76-84 | writes Base16 (section 8 of RFC 4648) in lower case |
| TextCodec.UnhexHex | storage/normalize.go:149-153 | hexadecimal text decodes to the bytes |
| TextCodec.CursorRoundTrip | storage/postgres/retention.go:304-318 | the cursor parser inverts the printer on every int64 time and identifier |
| Fields.BitsRoundTrip | field.go:66-101 | two's-complement bits and signed values invert each other |
| Fields.WireKeepsField | wire/wire.go:140-152 | a field survives the wire exactly when a constructor could have built it |
| Fields.RoleIsItsFields | storage/normalize.go:130-171 | a role's link depends only on that role's fields, whatever is interleaved |
| Fields.RefRoundTrip | payload/payload.go:54-84 | the fields of a reference rebuild it, signed sizes, checksum and class included, if and only if its retain-until time fits int64 nanoseconds; otherwise only that time differs |
| Fields.AttachmentRoundTrip | storage/normalize.go:130-171 | those fields rebuild the link: the reference with its time as int64 nanoseconds, original and captured size, truncation, error |
| Wire.FromEvent | wire/wire.go:118-155 | encodes identifiers, level and fields |
| Wire.CheckEvent | wire/wire.go:178-229 | accepts exactly the valid wire events |
| Wire.Check | wire/wire.go:86-102 | accepts exactly the valid envelopes |
| Wire.ValidExactly | wire/wire.go:178-229 | an encoded event is valid if and only if the event is well formed; identifiers never matter |
| Wire.MarshalBatch | wire/wire.go:59-84 | accepts exactly non-empty batches of well-formed events that name a service |
| Normalize.SortRoles | storage/normalize.go:103-107 | roles come out strictly ascending and complete |
| Normalize.ListLinks | storage/normalize.go:103-113 | lists exactly the links that name an object or an error, by role |
| Normalize.ColumnIsLast | storage/normalize.go:59-94 | a column takes the last field of its key |
| Normalize.NormalizeEvent | storage/normalize.go:33-115 | the loop fills columns, error flag and payload links from the fields |
| Normalize.NormalizeEnvelope | storage/normalize.go:17-31 | normalises all events of a valid envelope and refuses exactly the others |
| Normalize.LinksAreAttachments | storage/normalize.go:130-171 | any interleaving of the fields of attachments under distinct dot-free roles is reassembled into exactly those attachments |
| Normalize.AnythingCanBeCarried | payload/payload.go:54-74 | attachments under any non-empty dot-free roles are carried by some event |
| Normalize.EventRoundTrip | storage/normalize.go:33-115 | encoding and normalising gives back identifiers, level, scope, entity, fields, and exactly the attachments that name an object or an error, sorted by role |
| Normalize.ListingUnique | storage/normalize.go:103-113 | such a list is determined by its elements |
| Capture.Body.Add | trailhttp/trailhttp.go:232-250 | the capture is exactly the first bytes up to each limit after any reads |
| Capture.Body.ReadAll | trailhttp/trailhttp.go:257-281 | for any sequence of reads, however split |
| Capture.Body.Truncated | trailhttp/trailhttp.go:357-369 | the truncation flag holds exactly when bytes were lost |
| Spooler.StepKeepsCount | trailhttp/spool.go:67-104 | every step keeps that an exchange is owed exactly one log entry |
| Spooler.LoggedExactlyOnce | trailhttp/trailhttp.go:184-287 | in every interleaving no exchange is logged twice, and after Close each finished one is logged exactly once |
| Spooler.StepLowers | trailhttp/spool.go:67-104 | every step but a repeated call, which does nothing, lowers a measure over exchanges, Close and worker, so every run is finite |
| Spooler.ClaimedCanMove | trailhttp/spool.go:70-82 | an exchange that has claimed its log entry can always move, or Close holds the lock and can |
| Spooler.AllLoggedInTheEnd | trailhttp/trailhttp.go:184-287 | when nothing is left to happen every exchange is logged exactly once and Close, if called, has returned |
| Spooler.NeverSendsOnClosed | trailhttp/spool.go:67-82 | the jobs channel is never sent to after it was closed, in any interleaving |
| Spooler.CloseCanMove | trailhttp/spool.go:67-104 | Close is never stuck: it can take the lock or a reader can give it up, it can go on, or the worker can |

## Left out

- Explorer server, query parsing, list queries, CORS and JSON responses: shallow branches around driver strings.
- SQL text, broker, database, object-store and file clients, timeouts and tickers: nondeterministic success, failure or cancellation.
- stdout, memory and NATS sinks: a sink is a recorder that may fail.
- Redaction, header masking and path normalisation: a policy choice settled by one branch.
- Flow terminals (the third ClickHouse table a rebuild rewrites) and ReplacingMergeTree row versions: rows are a set, so duplicate physical rows count once.
- Floating-point values: a float field is its 64 bits.
- Archive byte and bundle counters of a run, dry-run payload candidate counts and ingestor statistics: sums that only add easy members.
- Equality of PostgreSQL and ClickHouse summaries: their definitions differ on purpose.
- Policy names, blank class names and the durations' overflow: times are integers.
- Ingestor.Engine.Run: the end of a fetch by timeout is not told apart from an empty fetch.
