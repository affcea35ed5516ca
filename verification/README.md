# MusicBrainz graph enricher: a verified model

This project models, in Dafny 4.11, the service that writes MusicBrainz records onto a shared music
graph, and proves what it keeps over every run. `dafny verify dfyconfig.toml` checks all of it.

## What is modelled

**The graph and its statements** (`CatalogGraph`, `MediaRows`, `MediaReconcile`, `EntityGate`,
`ReleaseProjection`, `ReleaseBatches`, `ReleaseRuns`, `ReleaseEffects`, `ReleaseRepeats`, `Relationships`,
`ArtistProjection`). The graph is a value: nodes with their mapped fields and digests, `ISSUED_ON` edges
with quantities, `IN_FAMILY` pairs, mediums that something else touches, artist edges. Each Cypher statement
is a function on it, with the deletes of a statement before its prune. `ReleaseWriter` and `ArtistWriter`
carry out transactions step by step, in loops. Their contracts say in plain terms what a delivery leaves:
which fields, digests, edges and counters, read off the records alone. They are also proved to compute the
functions `EnrichOne`, `EnrichMany`, `EnrichSingle` and `EnrichBatch`. About those it is proved that a batch on distinct releases is its records one at a time in
any order, that the digest gate changes nothing but the work done, that pruning removes exactly the
mediums it should, and that grouped relationship writes equal one-by-one writes. The digest is a free
constructor, so equal digests mean equal payloads. `fam` names one family for each medium; existing
nodes and records are required to agree with it, as the vocabulary library guarantees.

**The lock order** (`LockOrder`, `MediaLocks`). Transactions take locks, commit or abort; holding to
commit. Ordered requests never form a wait cycle, always leave a possible step and all finish. The lock
lists of the media write are shown ordered, complete for what the write touches, and stable while other
releases are written.

**The write batcher** (`BatcherModel`, `BatcherHistory`, `BatcherRuns`, `BatcherProgress`,
`WriteBatcher`, `ReleaseService`, `ArtistService`). `BatcherModel` gives one event at a time as a function on states;
`WriteBatchers.WriteBatcher` is the class whose methods update the fields and are proved to make exactly
that event. A ghost log of committed transactions ties answers and counters to what was written.
`ReleaseService` and `ArtistService` join the batcher to the projections. `README.md:60` and
`docs/musicbrainz-sync.md:55` of the service still say that each delivery has its own transaction; the
code batches by default (`brainzgraphinator/brainzgraphinator.py:139`) and the model follows the code.

**The consumer lifecycle** (`ConsumerModel`, `ConsumerRuns`, `ConsumerService`). Registration, grace
timers, confirmed cancellation, closing, recovery, alarms and shutdown, with every broker outcome.
Closing by a recovery and recovery itself are one step each; an idle close is two, and cancellation tasks
interleave with everything. History variables record what the broker really holds and which registration
a tag stands for, because tag strings repeat after a recovery.

**Tag mapping and capture** (`Sorting`, `TagBeam`, `TagCapture`). The two-level beam search over recorded
distributions, and the bounded, cached retry loop that records them. `log` and `exp` are parameters; the
proofs need only that `exp` is monotone and maps 0 to 1.

## Findings

- `_superseded` compares string forms, and a missing id reads `"None"`. The last record of an artist whose
  id is the string `None` is skipped when a later record of the batch has no id. `LastIsSupersededOnlyByMissingId`
  shows this is the only way, `RelationsDeliveredExactly` says exactly when the relations survive it, and
  `MissingIdHidesArtistNone` gives an input that loses an edge.
- `enrich_releases_batch` promises that a later message replaces an earlier one "as sequential delivery
  would". It does not when the earlier one has a media block and the later one has none:
  `SupersededMediaAreLost` and `SupersededRelationIsLost` give inputs, `RepeatsKeepMedia` and
  `BatchEqualsSingles` say exactly when the results agree.
- An idle close that is interrupted asks for no recovery, because its handler catches only `Exception`. If a
  late record interrupts it, that record's kind goes on the alarm list. If a second marker does, nothing is
  left to notice: `ServiceCanStall` is a run after which the connection is held, nothing is subscribed and
  the checker rests for good. `WakeUpAfterInterruptedClose` says exactly when the next wake-up recovers.

## Model

| member | source | states |
|---|---|---|
| MediaRows.CollectEdgeRows | brainzgraphinator/_projections.py:156-178 | the dictionary loop gives one row per medium that some item names, in first-seen order, with that medium's first family, caption and total |
| MediaRows.RowsConserveQuantity | brainzgraphinator/_projections.py:156-178 | the rows are distinct mediums and their quantities sum to the normalised quantities of all valid items |
| MediaRows.SingleItemRow | brainzgraphinator/_projections.py:165-176 | an item stands for the quantity it states when that is an integer of at least one, and for one otherwise; its row has the medium, the family and the vocabulary's caption or else the id |
| MediaRows.TotalsAdd | brainzgraphinator/_projections.py:167-177 | a medium's total over two lists of items is the sum of its totals, so rows add up what single items stand for |
| MediaRows.RowsFollowItems | brainzgraphinator/_projections.py:156-178 | rows come in the order in which their mediums are first named, each under the family named there |
| MediaRows.ReorderingKeepsRows | brainzgraphinator/_projections.py:156-178 | when a medium names one family, any permutation of the items gives the same set of rows |
| MediaReconcile.StatementsReconcile | brainzgraphinator/_projections.py:120-140 | locking, summary with stale deletes and prune, and edge merges together leave the closed form `Reconciled`: stale edges gone, wanted edges with their quantities, unused mediums gone, every attached medium and family there and filed |
| MediaReconcile.ReconcileComposes | brainzgraphinator/_projections.py:460-481 | all deletes and prunes then all merges of two disjoint sets of releases equal the first set's whole write followed by the second's, even where one drops a medium the other attaches |
| MediaReconcile.ReconcileLeavesNoOrphan | brainzgraphinator/_projections.py:33-51 | a write on an orphan-free graph leaves no medium without an edge, another relationship or a reason to stay |
| MediaReconcile.ReconcileKeepsNames | brainzgraphinator/_projections.py:120-140 | after a write every edge ends at existing nodes and every medium is still named by the vocabulary |
| MediaLocks.MediaLockArgs | brainzgraphinator/_projections.py:98-110 | one lock item per medium, the first row for it, in id order; families in name order without repeats |
| MediaLocks.LockSequenceClimbs | brainzgraphinator/_projections.py:53-117 | from the two statements' own lists (families deduplicated, items plus the stale ids not among them, sorted without deduplication) and the lock arguments' promise of distinct ids, the locks come in strictly climbing order, whatever the matches list and how often |
| MediaLocks.LockSequenceTakes | brainzgraphinator/_projections.py:61-95 | and they are exactly the families and mediums to attach and the stale ones |
| MediaLocks.RepeatedItemIsLockedTwice | brainzgraphinator/_projections.py:98-110 | with a repeated item id the medium list is not strict, so the deduplication is needed |
| MediaLocks.LocksCoverTheWrite | brainzgraphinator/_projections.py:61-140 | every medium, family and edge to them that the lock, summary, prune and edge statements change lies in the set locked beforehand |
| ReleaseRuns.LockListsStayAlongRuns | brainzgraphinator/_projections.py:61-95 | while a transaction holds its releases, any number of other deliveries, single, batched or another catalog's, leave the stale mediums and families its lock statements read as they were |
| ReleaseRuns.RunsKeepFiled | brainzgraphinator/_projections.py:131-140 | along any run every musicbrainz edge's medium stays filed under its family, which is what that stability needs |
| MediaLocks.FlushesNeverDeadlock | brainzgraphinator/_projections.py:53-117 | any number of concurrent media writes, in any interleaving and whatever graph each one's statements read: no wait cycle, some unfinished one can go on without aborting, and steps are bounded |
| LockOrder.NoWaitCycle | brainzgraphinator/_projections.py:53-60 | in a state whose transactions ask in order, no chain of waits returns to its start |
| LockOrder.NeverStuck | brainzgraphinator/_projections.py:53-60 | while any transaction is unfinished, some step other than an abort is possible |
| LockOrder.RunIsBounded | brainzgraphinator/_projections.py:53-60 | each step uses up a count of locks still to take and commits still to make, so every run is finite |
| LockOrder.AllFinish | brainzgraphinator/_projections.py:53-60 | from every reachable state there is a run without aborts after which every transaction has ended |
| LockOrder.OrderedLocksNeverDeadlock | brainzgraphinator/_projections.py:113-117 | the three together, for every run from transactions with ordered lock lists |
| EntityGate.RunEntityBatch | brainzgraphinator/_projections.py:502-550 | the index, write and report loops leave each node rewritten by the last record naming it when its digest differs, report matched and changed for every record, and move the counters by matched, unmatched and unchanged records |
| EntityGate.BatchCounts | brainzgraphinator/_projections.py:546-549 | enriched rises by the number of records that find their node, skipped by the others, replays by the number of last records whose payload the stored digest already is |
| EntityGate.SecondDeliveryReplays | brainzgraphinator/_projections.py:318-335 | delivered again, a payload changes nothing and counts as one match and one replay |
| EntityGate.LastRecordWins | brainzgraphinator/_projections.py:502-550 | for any batch, with integer and string ids naming the same node, fields, digests and matched flags equal gated delivery one at a time |
| EntityGate.InOrderLeavesLast | brainzgraphinator/_projections.py:302-335 | delivery one at a time leaves each node with the fields and digest of the last record naming it |
| Identifiers.NumbersKeyApart | brainzgraphinator/_projections.py:525-531 | a numeric id keys the node its decimal numeral keys, with a minus sign below zero and no leading zero; different numbers key different nodes |
| Identifiers.PrecedesMeans | brainzgraphinator/_projections.py:98-110 | the vocabulary order: a string precedes another if and only if it is a proper prefix or has the smaller character where they first differ |
| MediaReconcile.LocksTaken | brainzgraphinator/_projections.py:113-117 | after both lock statements every medium and family to attach is there under its vocabulary name, and nodes, edges and filings are as they were |
| ReleaseProjection.ReleaseWriter.ReconcileReleaseMedia | brainzgraphinator/_projections.py:188-213 | true is returned if and only if the record has a media block, the canonical one or else the derived one; then the summary is its families and its number of mappings, the release's musicbrainz edges go to exactly the mediums some item names, each with the items' total, these mediums are there and filed under the family first named, and no other edge moves; without a block nothing changes |
| ReleaseProjection.ReleaseWriter.EnrichRelease | brainzgraphinator/_projections.py:412-431 | from true digests or with the gate off: the node a record finds ends with the record's mapped fields and a digest of those fields and of the media it projects, and every other node is as it was; one match or one miss is counted, and a replay if and only if the stored digest was already the record's |
| ReleaseProjection.ReleaseWriter.EnrichReleasesBatch | brainzgraphinator/_projections.py:692-722 | from true digests or with the gate off: every release the batch names ends with the fields and digest of the last record naming it, and the rest keep theirs; a record's flag says whether its release is there; the counters rise by the number of records matched, unmatched, and repeated |
| ReleaseProjection.DigestsTellRecordsApart | brainzgraphinator/_projections.py:289-344 | two records have one digest if and only if they map the same fields and project the same families, number of mappings and edge rows |
| ReleaseProjection.ItemsAreSorted | brainzgraphinator/_projections.py:716-718 | the batch's edge items are its releases' rows, each as often, sorted by medium and then release |
| ReleaseEffects.BatchShowsLast | brainzgraphinator/_projections.py:692-722 | from true digests, gated or not: each release a batch names shows its last record's fields and digest and, if that has a media block, exactly that block's summary, edges with totals, and filed mediums |
| ReleaseEffects.RunsShowLast | brainzgraphinator/_projections.py:692-722 | so it does for the next batch after any run of deliveries |
| ReleaseBatches.ManyIsEnriched | brainzgraphinator/_projections.py:692-722 | a batch's statements leave the closed form: last records written, then the changed ones' media reconciled together |
| ReleaseBatches.OneIsEnriched | brainzgraphinator/_projections.py:412-431 | a single write is the closed form of the batch holding just that record |
| ReleaseBatches.BatchIsAnyOrder | brainzgraphinator/_projections.py:692-722 | a batch on distinct releases leaves the whole graph its records leave one at a time, in any order |
| ReleaseRepeats.RepeatsKeepMedia | brainzgraphinator/_projections.py:692-722 | for any batch, repeated ids or not: a release's media summary and musicbrainz edges come out as one at a time if and only if none of its records has a media block, or its last one does, or the graph already shows the latest block |
| ReleaseRepeats.AgreeingRepeatsAreHarmless | brainzgraphinator/_projections.py:692-722 | when earlier records of a release carry no media block or its last record's, the batch leaves the whole graph of one-at-a-time delivery |
| ReleaseRepeats.SupersededMediaAreLost | brainzgraphinator/_projections.py:696-705 | two records of one release, the first with media and the second without, whose batch loses the media that delivery one at a time writes |
| ReleaseRuns.GateIsTransparent | brainzgraphinator/_projections.py:296-344 | from a graph whose digests are true, delivery with the gate and with the gate off leave the same graph |
| ReleaseRuns.RunsAreTransparent | brainzgraphinator/_projections.py:412-431 | over any run of single and batched deliveries with another catalog writing in between: stored digests stay true, no edge dangles, orphan-free stays orphan-free, and the gate changes nothing |
| ReleaseRuns.PruneIsExact | brainzgraphinator/_projections.py:33-51 | a medium is deleted if and only if the write takes a musicbrainz edge off it, attaches none, leaves no edge of any catalog on it and no other relationship touches it |
| ReleaseRuns.SinglePruneIsExact | brainzgraphinator/_projections.py:188-213 | the same for a single write |
| ReleaseRuns.RunsPruneExactly | brainzgraphinator/_projections.py:33-51 | and for the next delivery after any run |
| ReleaseRuns.OtherEdgesKept | brainzgraphinator/_projections.py:460-481 | one write keeps every edge of another catalog, and of releases it has no plan for, with its quantity |
| ReleaseRuns.OtherCatalogsKeepTheirEdges | brainzgraphinator/_projections.py:460-481 | so does any run of deliveries |
| Relationships.CreateRelationshipEdges | brainzgraphinator/_projections.py:216-250 | an edge is there afterwards if and only if it was before or some supported relation with a target and both artists in the graph asks for it: from the owner to the target, or from the target to the owner when it is backward; created counts the new edges, updated the other resolved relations, missing the supported ones that did not resolve |
| Relationships.CreateRelationshipEdgesBatch | brainzgraphinator/_projections.py:567-613 | the same, in the same plain terms, for the grouped statements; an owner is complete if and only if each of its supported relations has a target and finds both artists |
| Relationships.InOrderLinks | brainzgraphinator/_projections.py:216-250 | the same for relations projected one by one: the edges they ask for, and each relation counted once |
| Relationships.BothSidesMakeOneEdge | brainzgraphinator/_projections.py:235-243 | the two artists' own records of one relationship, one forward and one backward, make one and the same edge |
| Relationships.ProjectedIsUnique | brainzgraphinator/_projections.py:567-613 | edges and counters are determined by the relations alone, so order and grouping cannot matter |
| ArtistProjection.ArtistWriter.EnrichArtist | brainzgraphinator/_projections.py:347-371 | from true digests or with the gate off: the artist a record finds ends with its mapped fields and a digest of fields and relations and keeps its relation digest, the others are as they were; an edge is there if and only if it was before or the record's relations ask for it; the counters rise by the match or miss, the replay and each of the relations |
| ArtistProjection.ArtistWriter.EnrichArtistsBatch | brainzgraphinator/_projections.py:616-655 | each artist the batch names ends with the fields and digest of its last record; an edge is there if and only if it was before or a record not superseded asks for it; the counters rise by the records matched, unmatched and repeated and by each relation of the records projected |
| ArtistProjection.RelationDigestIsSound | brainzgraphinator/_projections.py:616-655 | in every state a run of singles, batches and newly arrived artists reaches, a stored relation digest means every supported relation of that list has its edge |
| ArtistProjection.RelationDigestExactly | brainzgraphinator/_projections.py:634-654 | the digest of a found and not superseded record's relations is stored after a batch if and only if the gate already vouched for it or every supported relation has a target and finds both artists; otherwise the artist keeps the digest it had |
| ArtistProjection.VouchedProjectsNothing | brainzgraphinator/_projections.py:638-645 | a batch whose relation digests are all stored adds no edge and counts no relation |
| ArtistProjection.BatchDelivers | brainzgraphinator/_projections.py:616-655 | after a batch, a matched last record that is not superseded has an edge for every relation whose artists exist, skipped by the gate or not |
| ArtistProjection.LastIsSupersededOnlyByMissingId | brainzgraphinator/_projections.py:658-661 | a last record is skipped as superseded if and only if its id reads "None" and a later record has no id |
| ArtistProjection.RelationsDeliveredExactly | brainzgraphinator/_projections.py:616-661 | a matched record's relations all have their edges after a batch if and only if no later record supersedes it, or each edge it asks for was there or is asked for by a record that stays |
| ArtistProjection.BatchLeaves | brainzgraphinator/_projections.py:616-655 | a batch, gated or not, adds exactly the resolvable edges that records it does not supersede ask for |
| ArtistProjection.MissingIdHidesArtistNone | brainzgraphinator/_projections.py:658-661 | a concrete batch where the collision loses an edge that delivery alone would have made |
| ArtistProjection.BatchEqualsSingles | brainzgraphinator/_projections.py:616-661 | for any batch, repeated ids or not: its edges equal those of one-at-a-time delivery if and only if no superseded record asks for an edge that nothing else provides |
| ArtistProjection.BatchNodesEqualSingles | brainzgraphinator/_projections.py:502-550 | for any batch, its fields and digests equal those of one-at-a-time delivery |
| ArtistProjection.SupersededRelationIsLost | brainzgraphinator/_projections.py:616-661 | two records of one artist, whose batch loses an edge that delivery one at a time makes |
| BatcherModel.NextKeepsQueued | brainzgraphinator/brainzgraphinator.py:824-893 | every event keeps: queue shorter than a batch, timer armed exactly while somebody is queued, flights of at most a batch in submission order, every undecided delivery in the queue or one flight |
| BatcherModel.FlushKeepsQueued | brainzgraphinator/brainzgraphinator.py:844-856 | a flush empties the queue into one flight of exactly the members whose caller has not gone, in order |
| BatcherHistory.OnePlace | brainzgraphinator/brainzgraphinator.py:844-856 | a queued delivery is in the queue or in one flight, never in two and never twice |
| BatcherHistory.NextKeepsTidy | brainzgraphinator/brainzgraphinator.py:858-945 | every event keeps: a committed delivery is out of the queue and never reads as failed, it was committed once, an answer was given by a committed transaction |
| BatcherRuns.EveryRunIsSound | brainzgraphinator/brainzgraphinator.py:804-945 | all of this in every state any sequence of events reaches |
| BatcherRuns.DeliveriesAreConserved | brainzgraphinator/brainzgraphinator.py:824-945 | the same in a caller's terms, for any delivery of any run: one place while undecided, committed at most once, value only after the commit that gave it; enriched and skipped equal to the reported deliveries, each of created, updated, missing and replays equal to the sum of that counter over the committed transactions' own writes, graph equal to those writes in commit order |
| BatcherRuns.DecidedOnce | brainzgraphinator/brainzgraphinator.py:858-893 | a decided future never changes again, except that its own handler takes the value |
| BatcherRuns.NextKeepsAccounts | brainzgraphinator/brainzgraphinator.py:948-957 | every event keeps the graph equal to the logged writes in order, each write counter equal to the sum, over the log, of what each transaction's own write counted, and enriched and skipped equal to the reported deliveries |
| BatcherProgress.PoisonIsIsolated | brainzgraphinator/brainzgraphinator.py:858-945 | a rejected batch replayed without interruption, with any verdicts: the graph is the in-order fold of the members that succeeded, each waiting caller gets what writing its record alone gives, nobody else is touched |
| BatcherProgress.MembersAreWrittenAlone | brainzgraphinator/brainzgraphinator.py:858-945 | in every run, other flushes and callers interleaved: a waiting member of a rejected batch waits on, or was decided once and for all by its own caller leaving or by its own write, which answered what writing it alone in that graph answers |
| BatcherProgress.FailureWritesNothing | brainzgraphinator/brainzgraphinator.py:858-893 | an outage, a stop or a lone poison record writes and counts nothing: each member still waiting is told that reason and nobody else is touched |
| BatcherProgress.GivenUpIsNeverWritten | brainzgraphinator/brainzgraphinator.py:844-856 | a delivery whose caller leaves while it is still queued is in no transaction of any later run |
| BatcherProgress.NothingIsStranded | brainzgraphinator/brainzgraphinator.py:824-945 | with no more submissions only a bounded number of flush steps can happen, and when none can, nobody waits |
| WriteBatchers.SingleTransaction.Execute | brainzgraphinator/brainzgraphinator.py:926-945 | however many runs of the transaction function aborted, with whatever counts in the shared counters, they end as the committed run's own and the graph as its write |
| WriteBatchers.BatchTransaction.Execute | brainzgraphinator/brainzgraphinator.py:904-924 | whether earlier runs aborted early or at the commit, having noted an outcome, flags and counters end as the committed run's |
| WriteBatchers.WriteBatcher.Submit | brainzgraphinator/brainzgraphinator.py:824-842 | the submitted delivery is queued last; the batcher flushes at the limit and otherwise arms the timer |
| WriteBatchers.WriteBatcher.FlushNow | brainzgraphinator/brainzgraphinator.py:844-856 | takes up to a batch, re-arms for what is left, launches the members still live |
| WriteBatchers.WriteBatcher.Commit | brainzgraphinator/brainzgraphinator.py:879-884 | the graph is the batch's write, each of created, updated, missing and replays rises by what that write counted, enriched and skipped stay, and each member still waiting is answered with its own flag |
| WriteBatchers.WriteBatcher.CommitRejected | brainzgraphinator/brainzgraphinator.py:868-878 | a lone member fails, a larger batch turns to replay |
| WriteBatchers.WriteBatcher.Replay | brainzgraphinator/brainzgraphinator.py:926-945 | one member in its own transaction; only its future is decided |
| WriteBatchers.WriteBatcher.HandlerResumes | brainzgraphinator/brainzgraphinator.py:840-842 | the delivery counts itself once, as enriched or skipped, and reports processed accordingly |
| WriteBatchers.WriteBatcher.WriteSingle | brainzgraphinator/brainzgraphinator.py:970-991 | the unbatched path adds exactly one to enriched plus skipped on success and nothing on failure |
| ReleaseService.BatchedReleasesAreTransparent | brainzgraphinator/brainzgraphinator.py:858-945 | after any run of the batcher over releases the graph is what the committed records leave, in commit order, each written in full, with true digests and no new orphan |
| ArtistService.BatchedArtistsKeepRelations | brainzgraphinator/brainzgraphinator.py:858-945 | after any run of the batcher over artists the graph is what the committed deliveries leave, relation digests are true and no edge has been lost |
| ConsumerModel.NextKeepsInv | brainzgraphinator/brainzgraphinator.py:463-474 | every event with every broker outcome keeps the lifecycle invariant |
| ConsumerModel.CloseMeans | brainzgraphinator/brainzgraphinator.py:657-695 | a confirmed close leaves no handle and no tag and asks for nothing; any other keeps every tag and asks for a recovery |
| ConsumerModel.AnswerDropsItsOwn | brainzgraphinator/brainzgraphinator.py:567-596 | a confirmed cancel drops exactly the registration it asked about, though tag strings repeat |
| ConsumerRuns.EveryRunIsConsistent | brainzgraphinator/brainzgraphinator.py:463-474 | in every reachable state the gauge is the number of tags, tags are on the connection's record, tags imply a handle, and with no cancel outstanding and no request the broker holds every subscription that has a tag |
| ConsumerRuns.StartupWatches | brainzgraphinator/brainzgraphinator.py:1406-1422 | startup holds a connection, subscribes every kind under its own tag, declares every queue and starts the watch, with nothing complete or requested |
| ConsumerRuns.TagsLeaveOnlyWhenConfirmed | brainzgraphinator/brainzgraphinator.py:567-596 | a registration disappears only on a confirmed cancel of that registration or a confirmed close of the transport |
| ConsumerRuns.RequestsAreExact | brainzgraphinator/brainzgraphinator.py:567-596 | after any event a recovery is requested if and only if something went wrong in it, or it was requested before and the event was no recovery |
| ConsumerRuns.RequestsStay | brainzgraphinator/brainzgraphinator.py:1179-1196 | a request survives any run without a recovery |
| ConsumerRuns.RecoveryRestoresService | brainzgraphinator/brainzgraphinator.py:1217-1302 | a recovery that found backlog and raised nothing leaves every kind registered and subscribed, the request gone, only kinds with backlog un-completed, every earlier task cancelled, and no alarm at any later time |
| ConsumerRuns.RecoveryStartsWatch | brainzgraphinator/brainzgraphinator.py:1254-1288 | it declares every queue and starts the watch anew, with every kind just heard from |
| ConsumerRuns.BrokenRecoveryHoldsOn | brainzgraphinator/brainzgraphinator.py:1295-1302 | a recovery that raised after connecting asks for another, forgets the queues, and keeps what it opened on record unless the teardown was confirmed |
| ConsumerRuns.DoomedTasksEnd | brainzgraphinator/brainzgraphinator.py:578-582 | as those cancelled tasks end, nothing moves but the request, which comes back if and only if one of them had a cancel in flight |
| ConsumerRuns.CompletionIsExact | brainzgraphinator/brainzgraphinator.py:703-743 | a kind is complete after an event if and only if the event is its marker, or it was complete and neither a record of it arrived nor a recovery restarted it for a backlog |
| ConsumerRuns.IdleServiceCloses | brainzgraphinator/brainzgraphinator.py:602-628 | a confirmed cancel goes on to close the connection if and only if it is a timed one, leaves no tag and everything is complete; that close, once confirmed, leaves no handle, no tag and a gauge of zero |
| ConsumerRuns.OldTasksCannotDropNewTags | brainzgraphinator/brainzgraphinator.py:1230-1233 | after a recovery no earlier cancellation task can be answered, so none can drop a new tag with the same string |
| ConsumerRuns.AlarmsMean | brainzgraphinator/brainzgraphinator.py:477-504 | a kind is listed if and only if it is incomplete, a record was handled or the watch has run for the idle timeout, and it has no consumer, or all other kinds are complete, the watch has run and it never delivered |
| ConsumerRuns.DeliveryIsSeen | brainzgraphinator/brainzgraphinator.py:428-441 | a handled record lets alarms sound and exempts its own subscribed kind, at any later time |
| ConsumerRuns.WakeUpsAreExact | brainzgraphinator/brainzgraphinator.py:1166-1210 | a wake-up recovers if and only if that was requested or some kind is on the alarm list, and looks at the queues if and only if neither is so, the interval is over, no connection is held and nothing is subscribed |
| ConsumerRuns.IdleServiceKeepsLooking | brainzgraphinator/brainzgraphinator.py:1166-1210 | after the confirmed idle close, however long nothing arrives: wake-ups rest until the interval since the last full check is over, and the first one after that checks all the queues |
| ConsumerRuns.EmptyLookRestsAgain | brainzgraphinator/brainzgraphinator.py:1217-1294 | a check that finds no message leaves the service resting as before |
| ConsumerRuns.TimersAreExact | brainzgraphinator/brainzgraphinator.py:599-634 | after any event a kind's grace timer is armed if and only if the event is its marker, with a queue and a delay set, or it was armed and the event is neither a record, nor its firing, nor shutdown, nor a recovery that dropped the transport |
| ConsumerRuns.CancelsBegin | brainzgraphinator/brainzgraphinator.py:602-615 | a timer that fires for a subscribed kind, and shutdown for each kind with a queue, begin a task that asks about the current registration |
| ConsumerRuns.NothingIsOverlooked | brainzgraphinator/brainzgraphinator.py:1179-1196 | with no cancel outstanding, an incomplete kind the broker no longer serves gets a recovery at the next wake-up, once alarms can sound |
| ConsumerRuns.InterruptedCloseIsNoticed | brainzgraphinator/brainzgraphinator.py:599-634 | a close interrupted by a late record leaves that record's kind on the alarm list |
| ConsumerRuns.WakeUpAfterInterruptedClose | brainzgraphinator/brainzgraphinator.py:657-695 | after an interrupted close that left no consumer, the next wake-up recovers if and only if a request stands anyway, or some kind is incomplete and an alarm can sound; otherwise it rests while a connection is held |
| ConsumerRuns.MarkerStalls | brainzgraphinator/brainzgraphinator.py:631-634 | a second marker of the kind being closed leaves nothing subscribed, everything complete, the connection held and no request |
| ConsumerRuns.StalledRests | brainzgraphinator/brainzgraphinator.py:1166-1204 | in that state the checker rests at every wake-up |
| ConsumerRuns.StallIsPermanent | brainzgraphinator/brainzgraphinator.py:1166-1204 | and no timer, marker or shutdown changes it |
| ConsumerRuns.ServiceCanStall | brainzgraphinator/brainzgraphinator.py:599-634 | a run from the start of the service that ends there |
| ConsumerModel.RegisterMissingMeans | brainzgraphinator/brainzgraphinator.py:463-474 | registering on an empty record leaves exactly the kinds reached with tags, each really subscribed, with record and gauge in step |
| ConsumerService.Consumers.CancelAnswered | brainzgraphinator/brainzgraphinator.py:567-596 | the step the model gives for a reply, confirmed or not, and the turn to closing when everything is idle |
| ConsumerService.Consumers.CloseConnection | brainzgraphinator/brainzgraphinator.py:657-695 | channel first, then connection, with each way either can fail |
| ConsumerService.Consumers.FileCompletion | brainzgraphinator/brainzgraphinator.py:703-743 | the marker completes its kind and replaces any pending cancellation by a fresh timer |
| ConsumerService.Consumers.RecoverConsumers | brainzgraphinator/brainzgraphinator.py:1217-1302 | drop, clear, connect, look for backlog, register what is missing, abandon on error: the model's step, keeping the invariant |
| ConsumerService.Consumers.ConsumerAlarms | brainzgraphinator/brainzgraphinator.py:477-504 | the loop's list is the alarm list |
| ConsumerService.Consumers.CheckerWakes | brainzgraphinator/brainzgraphinator.py:1166-1210 | it recovers if and only if a recovery was requested or some kind is on the alarm list; it makes a full check, and notes the time, if and only if neither is so, the interval is over, no connection is held and there are no tags |
| ConsumerService.Consumers.Shutdown | brainzgraphinator/brainzgraphinator.py:637-654 | every pending timer is cancelled before the shutdown cancels begin |
| Sorting.SortBySorts | scripts/spike_tag_mapping.py:108-108 | sorting by a strict order leaves no element before an earlier one |
| Sorting.DistinctInOrder | scripts/spike_tag_capture.py:190-190 | the distinct tags keep the order in which they first came |
| TagBeam.RunTraverse | scripts/spike_tag_mapping.py:80-109 | the two rounds compute the search or its first failure; each result's score is exp of the mean log of the probabilities recorded for the choices on its path, all recorded and none zero, or 1 when the path has no choice |
| TagBeam.AcceptedExactly | scripts/spike_tag_mapping.py:96-104 | a recorded answer is accepted if and only if it is the pinned model's, covers exactly the options, holds numbers between 0 and 1, and sums to one within a millionth |
| TagBeam.ModelOkMeans | scripts/spike_tag_mapping.py:97-98 | accepted model names are the pinned one and those that continue it after a dot |
| TagBeam.ChildrenInOrder | scripts/spike_tag_mapping.py:68-73 | the options of a level are its labels in code-point order with the reserved label last |
| TagBeam.BestKeepsBest | scripts/spike_tag_mapping.py:108-108 | a round keeps as many candidates as the width allows, and none left out comes ahead of one kept |
| TagBeam.TiesGoToSmallerPath | scripts/spike_tag_mapping.py:108-108 | survivors with equal means come in the order of the labels where their paths part |
| TagBeam.ResultsAreTreePaths | scripts/spike_tag_mapping.py:80-109 | for every taxonomy with distinct labels and accepted captures: results are paths of the tree, distinct, at least one, at most the width, by falling score |
| TagBeam.BeamCoversGreedy | scripts/spike_tag_mapping.py:80-109 | where the three-wide search succeeds, greedy search succeeds, needs only requests the wide one used, and scores no better |
| TagBeam.TraverseStable | scripts/spike_tag_mapping.py:80-109 | a search that succeeded keeps its result however many captures are added |
| TagCapture.StoredIsAccepted | scripts/spike_tag_capture.py:56-70 | what capture stores is exactly what replay accepts, booleans posing as numbers aside |
| TagCapture.AskIsBounded | scripts/spike_tag_capture.py:146-176 | whatever the provider answers: the budget is never passed, one request per attempt and at most the allowed attempts, sleeps only between attempts and within the bound |
| TagCapture.AskTakesItsCourse | scripts/spike_tag_capture.py:146-176 | an answer is retried if and only if it is a rate limit or a transient fault with attempts left and a wait within the bound; the wait is the provider's own when usable, else the bounded doubling backoff; the question ends with the budget or on the first answer not retried, with that answer's verdict |
| TagCapture.CourseIsUnique | scripts/spike_tag_capture.py:146-176 | these conditions leave nothing of the question's course open |
| TagCapture.Capturer.AskProvider | scripts/spike_tag_capture.py:146-176 | the retry loop takes exactly that course, and terminates |
| TagCapture.Capturer.Resolve | scripts/spike_tag_capture.py:134-185 | a cached key costs nothing; otherwise at most one valid answer, the provider's last, is added; on failure nothing is, and one failure is filed with the key, the number of requests spent and the kind the last answer calls for |
| TagCapture.Capturer.CaptureTag | scripts/spike_tag_capture.py:187-194 | a tag completes if and only if the offline search succeeds on the resulting cache, with the same results; a tag that already did costs no request |
| TagCapture.Capturer.Run | scripts/spike_tag_capture.py:187-210 | distinct tags in order, skipped only with the budget spent; a processed tag is completed if and only if it replays from the final cache, only valid captures are added, and a rerun of replayable tags makes no request |
| TagCapture.ReportSharesOut | scripts/spike_tag_capture.py:187-210 | completed, failed and skipped tags share out the distinct tags, each once, with the skipped ones a suffix |

## Left out

- `run_delivery`, the resilient driver and broker wrappers, `families_of` and the raw-media mapper: library code; the media helpers are parameters, and the model stops at the result the handler returns.
- SHA-256, JSON and Cypher text: the digest is an injective constructor and each statement a function.
- `mb_updated_at` and every other clock value written to a node: no property speaks of them.
- The row builders and `_life_span`: a record carries its mapped fields already.
- Labels and release groups have no projection beyond the gate; `EntityGate` is their whole model.
- ReleaseRepeats.AgreeingRepeatsAreHarmless: for the whole graph the condition is sufficient only; the exact condition is given for each release's own summary and musicbrainz edges.
- BatcherProgress.PoisonIsIsolated: covers the uninterrupted replay; with other events in between, `MembersAreWrittenAlone` gives the answers and the log in `DeliveriesAreConserved` the graph.
- MediaLocks.FlushesNeverDeadlock: release rows are locked in arrival order, so the result is about the media vocabulary with disjoint releases.
- Several data types writing at once: the batcher's graph changes only through its own commits; `ReleaseRuns` lets another catalog write in between.
- Replacement of the event loop in `submit`, and cancellation of a flush outside its commit: the running service does neither.
- Commit order between parallel flushes: the code promises none; runs are compared in the order they committed.
- ConsumerModel.NextKeepsInv: a recovery that was already past its shutdown check when the signal came is not modelled, and neither are records handled in the middle of a recovery.
- A NaN retry-after, which makes `sleep` raise, and the order in which a malformed distribution's faults are noticed: any of them ends the search.
- Latency, token counts, `percentile`, `inventory`, `evaluate`, `extrapolate` and the capture session's start-up checks: easy counting or I/O.
- Health output, progress reports, telemetry and `main`'s start-up retries.
