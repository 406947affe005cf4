# Inflow Lab in Dafny

A model of the parts of Inflow Lab in which a mistake would show only over a whole run, and
proofs of what they keep. `dafny verify dfyconfig.toml` checks all of it.

- **Controller** (`Controller*.dfy`): the snapshot / deliver / commit protocol as a transition
  system, one step for each stretch of code between two awaits, with the three locks, the
  store epoch, the run loop and its stop event, and any failure the environment can cause.
- **Event store** (`Store*.dfy`, `Sorting.dfy`): `EventStore` as a class over two files, proved
  against a specification of the log, archive, ring, counter and count under write errors at
  any record, with the parsed-log cache and other processes writing to the file.
- **Lineage** (`Graph.dfy`, `Lineage.dfy`): the worklist search and the edges, proved against
  walks in the parent-link graph.
- **Delivery** (`Pairing.dfy`, `Delivery*.dfy`, `Retry*.dfy`): pairing, chunks, records,
  totals, and the retry of failed records under the keys they were sent with.
- **Mock RegEngine** (`Mock*.dfy`, `Resume*.dfy`): `ingest` with its hash chain and its bounded,
  expiring cache, and the chain tip read back after a restart.
- **Engine** (`Flow*.dfy`, `Engine*.dfy`, `Quantities.dfy`): `LegitFlowEngine` as a class whose
  actions are proved to make the moves of a relation on pools of lots; every random draw is
  an arbitrary choice within its range.
- **Scenarios and identifiers** (`Scenarios.dfy`, `ScaleEffects.dfy`, `Gs1.dfy`): scaling, GLNs, SSCCs, lot codes
  and the check digit of section 7.9 of the GS1 General Specifications.

Modules named `...Spec` or `Flow` say what one operation does; those named `...Effects`,
`MockVerdicts` and `FlowStory` state its effect in plain terms, apart from those definitions;
the others prove what it means over all inputs or all runs. Quantities are integer cents, times integer microseconds,
weights exact reals. The hash is an uninterpreted function; where a result needs freshly
minted keys to be new, or the hash not to collide, its `requires` says so.

## What the code does not keep

Nine properties that the code or its comments suggest fail for some inputs. Each has its
exact condition, proved for all inputs, and where that is not plain an input that breaks it.

1. The store epoch is bumped last, so a reconfiguration that fails after touching the store
   lets a batch snapshotted before it be committed: exactly then (`StaleIffAborted`,
   `AbortedLoadLeaks`).
2. `reset` clears memory before it removes the file, so a failed removal leaves the two
   apart unless the log was empty (`ClearKeepsStory`).
3. `update_many` gives two records with one replaced id the same number
   (`UpdateKeepsStory`), and `replace_all` trusts its caller for distinct numbers
   (`ReplaceKeepsStory`).
4. An empty log file is answered from the ring and that answer is cached under the file's
   stamp. Unless other processes write on both sides of a read, that is the only way a hit
   can be wrong (`HitIsRightIff`, `MisreadsIff`, `StaleAfterTruncation`).
5. Pairing by key and order gives the wrong verdicts for a rejected-first response exactly
   when an accepted event is followed by a rejected one with its lot and CTE
   (`RejectedFirstPairedRightIff`).
6. The mock's duplicate key joins its fields with bars. Events of two lots are taken for one
   exactly when one lot code is the other followed by a bar and a time, and then by its end
   or another bar (`ConfusedIffClash`, `BarsCollide`). The time goes in as written, so a
   repeated event is noticed exactly when its offset is the same (`RepeatNoticedIff`,
   `TwoOffsetsPass`).
7. A retry that takes only part of the records waiting under one key (the default limit is
   50, a chunk has up to 500) is replayed the first part's answer, and a part of the same
   size reads posted without having been ingested (`SplitGroupLies`). Posted means ingested
   exactly as long as no commit is misled in this way, also when imports and retries overlap
   (`RetryFlights.PostedMeansIngestedIff`, `RetryExact.PostedMeansIngestedIff`); retries that
   take whole groups never are (`WholeIsNeverMisled`).
8. The `posted` total of a retry misses one record for each rejection, in a cached answer of a
   group's size that its request is replayed, that no event of the group takes: exactly then
   (`RetryAddsUpIff`, `SplitGroupMiscounts`).
9. A retried batch keeps its old sequence numbers and a replayed one gets old hashes, so a
   restarted mock can read back an older tip. It reads its own exactly when the last operation
   that got an event accepted afresh was committed and no record behind those it got accepted
   carries a hash, or when a later commit left the tip as the newest hash of the log
   (`TipRecoveredIff`, `RetriedTipIsLost`, `SecondRetryRecovers`).

A comment at app/controller.py:990-993 says that committing a retry after a reset would put
the deleted records back; `update_many` (app/store.py:681-708) only rewrites records that are
already in the log, and the model follows the code.

## Model

| member | source | states |
|---|---|---|
| ControllerSafety.RunKeepsInv | app/controller.py:172-213 | after every interleaving of start, stop, reset, the two loads, step, import, retry, replay and save, at every await point and with every failure, the lock owners, task, stop events, epochs and log agree |
| ControllerSafety.OneLoop | app/controller.py:281-285 | at most one run loop is live, and `_task` names it, so no stop/start race orphans a loop |
| ControllerSafety.NoLoopWhileRepointing | app/controller.py:374-388 | none is live from the moment reset or a load has stopped the old one until its repoint is over |
| ControllerSafety.StaleIffAborted | app/controller.py:418-423 | a record from before the store was last touched is in the log if and only if a reconfiguration failed between that batch's snapshot and its commit |
| ControllerSafety.NeverStaleWithoutAborts | app/controller.py:203-213 | so when every reconfiguration succeeds no stale batch ever reaches the log |
| ControllerSafety.CommittedMeansDelivered | app/controller.py:586-612 | a commit is taken exactly when the epoch is the snapshot's, and then every request of the batch had been sent |
| ControllerSafety.CommitReportsWhatItAdded | app/controller.py:622-637 | whatever fails, an operation that reports a number stored exactly that many; a dropped one stored none; a retry adds none and changes only the records it sent |
| ControllerAbort.AbortedLoadLeaks | app/controller.py:812-818 | there is a run in which `load_scenario_save` fails after re-reading the store and a stale batch is committed |
| ControllerEffects.RepointLeaves | app/controller.py:380-388 | over any run, a reset or a clearing fixture load that succeeds leaves an empty log, a scenario load exactly the records of its save, a start and any other fixture load the log as it was; each counts one more epoch, and one that raises counts none |
| ControllerEffects.StartLeavesALoop | app/controller.py:277-285 | a start leaves a live run loop that `_task` names: the one there was, or a new one if none was running |
| ControllerEffects.ConfigureLeaves | app/controller.py:1113-1114 | re-reading the store leaves what the disk says and the epoch as it was |
| ControllerEffects.OthersLeaveTheLog | app/controller.py:172-213 | no section but these and a commit touches the log or the epoch |
| ControllerEffects.CommitLeaves | app/controller.py:995-1005 | a retry that commits rewrites every record of its batch and no other, one that is dropped or raises none; a write error leaves as many appended records as were written before it; no commit moves the epoch |
| ControllerEffects.StopSignals | app/controller.py:298-313 | stop sets the event of the loop `_task` names and waits for that loop |
| ControllerEffects.StopClears | app/controller.py:323-337 | once it is over `_task` is cleared, unless it names another loop by then |
| ControllerEffects.RefusalTouchesNothing | app/controller.py:232-272 | an operation refused in its first section is over, has touched nothing and holds no lock |
| ControllerEffects.UnreadableSaveTouchesNothing | app/controller.py:802-811 | a scenario save that cannot be read ends its load before anything is touched |
| ControllerEffects.TaskChangesUnderItsLock | app/controller.py:172-180 | `_task` and the stop events change only while no other operation holds the lifecycle lock |
| ControllerEffects.SnapshotTakes | app/controller.py:391-410 | what an operation copies before it delivers: the epoch, and new ids of its own, or for a retry exactly those records of the log it was asked for |
| ControllerEffects.FixtureSnapshotTakes | app/controller.py:697-703 | a fixture load reads the epoch after its own clearing, so it does not drop its own batch |
| ControllerEffects.RequestsStop | app/controller.py:497-505 | once the store has moved an import, a retry or a replay sends nothing more; otherwise the next request goes out |
| ControllerProgress.NothingIsStuck | app/controller.py:172-201 | in every reachable state each unfinished operation is at most four waits away from a coroutine that can move |
| ControllerProgress.OperationIsBounded | app/controller.py:172-201 | over any run, whatever the others do, an operation makes at most fifteen moves and one for each request of its batch |
| ControllerProgress.StoppedLoopEnds | app/controller.py:1156-1158 | from the moment its stop event is set a run loop begins no further step in any continuation of any run, and makes at most nine more moves |
| ControllerProgress.SignalledLoopWindsDown | app/controller.py:1156-1158 | in any continuation its moves and what is then left of its step together are no more than what was left of it |
| ControllerProgress.EachMoveSpends | app/controller.py:546-640 | each move of an operation uses up one of the moves left, to which a snapshot adds the requests of its batch; only a run loop that passes its `while` test starts over |
| ControllerProgress.OthersLeaveIt | app/controller.py:298-313 | no other coroutine's move touches an operation or unsets a stop event |
| ControllerProgress.DrainedLoopIsSignalled | app/controller.py:298-323 | the loop `stop` awaits is one whose event is set, so it winds down |
| StoreStory.StoryKeptIffGranted | app/store.py:446-500 | one operation keeps the story of file and memory if and only if: a rewrite's numbers are distinct, an update replaces no id that occurs twice, a reset removes the file |
| StoreStory.RunKeepsStory | app/store.py:280-313 | given just that much of each operation, after any run of store operations, finished or cut off by a write error at any record, ring, counter, count and file tell one story, which a store loaded afresh tells too |
| StoreStory.AppendKeepsStory | app/store.py:541-573 | an append keeps it wherever it or the rotation behind it fails |
| StoreStory.UpdateKeepsStory | app/store.py:681-708 | an update keeps it if and only if no replaced id occurs twice in the log |
| StoreStory.ReplaceKeepsStory | app/store.py:710-718 | a replacement keeps it if and only if its records have distinct numbers |
| StoreStory.ClearKeepsStory | app/store.py:446-456 | a reset keeps it if and only if the file is removed or was empty, because memory is cleared first |
| StoreStory.SortIncreasingIffDistinct | app/store.py:460-500 | records sort to a strictly increasing log exactly when their numbers are distinct |
| StoreStory.PushFirstKeepsRing | app/store.py:559-573 | pushing a batch onto the bounded ring one by one gives the reverse of the newest records of the longer log |
| StoreRotation.NothingIsLost | app/store.py:575-647 | with a failure anywhere in any append or rotation, each stored record is in the live log or the archive, the live log is the newest part of all of them in order, and at most ten records are rewritten per record retired |
| StoreRotation.ArchiveThenLive | app/store.py:575-628 | without failures the archive followed by the live log is exactly what was appended, and the live log is within its bound and slack |
| StoreRotation.SmoothAppendIsBounded | app/store.py:586-600 | one append without failures brings the live log back within its bound and slack however long earlier failures let it grow |
| Store.EventStore.AllRecords | app/store.py:901-936 | with other processes writing before and after the read, the imperative read answers, caches or drops as specified, and touches nothing else |
| StoreRuns.Work | app/store.py:280-313 | over any run of calls on one store, with updates and rotations reading through the cache and each call granted what the story needs, the log is what the specification makes of it, file and memory tell one story, the cache stays sound and every read answers the log as it stands |
| StoreEffects.EachStepDoes | app/store.py:530-718 | over any granted run each operation does, record by record, just what it was asked: an append adds the given records under the next numbers, an update replaces exactly the records with those ids in their places, a replacement leaves the records given, a reset none |
| StoreEffects.AppendLeaves | app/store.py:541-628 | the records up to the failing line are behind the log, as given but for their numbers; a synced batch that makes the log longer than its bound by more than a tenth and more than one sends the oldest to the archive and cuts them off, but only if they all got there |
| StoreEffects.UpdatePatches | app/store.py:681-708 | when no replaced id occurs twice, each record with a replaced id is its replacement under its old number, every other one is unchanged, and all are in their old places |
| StoreEffects.UpdatedTwice | app/store.py:688-700 | when one occurs more than once, all its records become the replacement under the number of the last |
| StoreEffects.ReplaceLeaves | app/store.py:710-718 | a replacement leaves a permutation of the records given, by number |
| StoreEffects.ResetLeaves | app/store.py:446-456 | a reset forgets every record in memory, and in the file if that goes |
| StoreEffects.LoadLeaves | app/store.py:280-313 | loading keeps the newest records, newest first, up to the bound, and takes the highest number of the file |
| StoreEffects.MemoryFollowsRewrite | app/store.py:616-619 | whatever memory held, a rewrite that reached the disk leaves its number of records and its highest number there, and a rotation corrects a count that ran ahead |
| StoreRuns.EachCallDoes | app/store.py:530-718 | the same of every call of a run on one store |
| StoreRuns.Serve | app/store.py:530-718 | one call on the store with its cache does that, and a read answers the log |
| StoreCache.HitIsRightIff | app/store.py:901-936 | over any interleaving of writes, resets, changes of path, other processes and reads, a hit answers what the file says if and only if the last read that filled the cache was no misread |
| StoreCache.SoundUnlessMisread | app/store.py:901-936 | over the same runs the cache holds what its stamp stands for if and only if that read was none |
| StoreCache.MisreadsIff | app/store.py:914-936 | unless others write on both sides of it, a read that keeps its answer is a misread if and only if the file is there and empty and the ring is not |
| StoreCache.OnlyEmptyFilesMislead | app/store.py:914-936 | so over runs without such a read only a hit on an empty file can answer anything else |
| StoreCache.SecondReadHits | app/store.py:901-936 | a read nobody disturbs answers the file, or the ring when the file has nothing, and the next one hits with the same answer |
| Store.EventStore.ReadAll | app/store.py:914-936 | undisturbed, a read leaves a sound cache if and only if it hits one or does not answer an existing empty file from a ring with records |
| Store.StaleAfterTruncation | app/store.py:914-936 | a log truncated by another process is answered from the ring, and that answer outlives a reconfiguration |
| Store.EventStore.AppendMany | app/store.py:530-573 | the imperative append stores the given records under the next numbers, up to the one whose write fails, returns just these, and raises exactly if a line or the sync fails; it changes the cache only when its rotation reads, and then the cache is sound |
| Store.EventStore.UpdateRecords | app/store.py:681-708 | over a consistent store and a sound cache, when no replaced id occurs twice, the log has each record with a given id replaced by the last one given, under its old number and in its old place, and every other record as it was; without those, the log is rewritten from what a read answers |
| Store.PatchAll | app/store.py:688-700 | two slots with one replaced id share one object, so both end with the replacement under the later slot's number |
| Store.EventStore.ReplaceRecords | app/store.py:710-718 | the file holds a permutation of the records given, by number, and memory follows it exactly when the rewrite reached the disk |
| Store.EventStore.RotateHistoryIfNeeded | app/store.py:575-628 | rotation archives before it trims, and leaves everything alone when it cannot read, archive or swap |
| Store.EventStore.ResetStore | app/store.py:446-456 | memory is cleared even when the file stays |
| Store.EventStore.Configure | app/store.py:275-278 | the files of every other path are untouched, and memory is what the new path's file says |
| Store.EventStore.Recent | app/store.py:720-722 | the newest records of the file, newest first, up to the limit and the ring's bound |
| Lineage.FindComponent | app/store.py:792-815 | the worklist search ends with exactly the lots some walk along parent links reaches |
| Lineage.FindLineage | app/store.py:792-819 | the search returns the records of the connected component by time |
| Lineage.LineageIsComponent | app/store.py:817-819 | a record is in the answer if and only if its lot is connected to the one asked about, as often as it is in the log, and the answer is in time order; links run along the record's own parent list and its two KDEs |
| Lineage.LineageAgrees | app/store.py:792-819 | every lot of a component gives the same list |
| Graph.ComponentsAgree | app/store.py:792-815 | connected lots have the same component |
| Sorting.SortedIsStable | app/store.py:818-818 | the sort orders by rank and keeps records of one rank in the order they came |
| Sorting.SortedPermutes | app/store.py:818-818 | and neither loses nor doubles any |
| Graph.ParentsOf | app/store.py:877-885 | a lot is among a record's parents if and only if it is in its own list, is its source-lot KDE or is one of its input lots |
| Lineage.LineageEdges | app/store.py:852-875 | over any list of records: every link whose source has a record in the list is drawn, no other is, none twice, and they come by time and number of their record and then by source in alphabetical order |
| Lineage.EdgesGoByTime | app/store.py:857-857 | the records are taken by time, and by number at the same time |
| Lineage.LineageWithEdges | app/store.py:852-885 | over a lineage the edges keep every link whose source lot has a record anywhere in the log, in that order |
| Pairing.PairEventResponses | app/delivery.py:372-418 | the queues give each event the next unused answer with its lot and CTE, malformed answers aside |
| Pairing.UsedAtMostOnce | app/delivery.py:403-418 | an answer is given to at most one event, and only to one with its key |
| Pairing.UnansweredMeansUsedUp | app/delivery.py:390-394 | an event is left without a verdict only when earlier events took every answer with its key |
| Pairing.PairedRightIffOrderKept | app/delivery.py:384-389 | every event gets its own verdict if and only if, key by key, the answers begin with that key's verdicts in request order |
| Pairing.PhasesPairedRightIff | app/delivery.py:376-389 | a response built in phases is paired right if and only if the phases follow the request order within each key |
| Pairing.RejectedFirstPairedRightIff | app/delivery.py:376-389 | rejected-first responses are paired right if and only if no accepted event is followed by a rejected one with its key |
| Delivery.DeliverPayload | app/delivery.py:117-275 | the outcome of one request in each mode: nothing sent, a failure that counts every event, a replay of another size as a failure, or the response's own counts |
| DeliveryEffects.WithoutDelivery | app/delivery.py:142-143 | without a destination nothing is sent and the outcome is that of no attempt |
| DeliveryEffects.LiveDelivery | app/delivery.py:163-216 | in live mode the live service's answer to this request counts and the mock is not asked |
| DeliveryEffects.MockDelivery | app/delivery.py:150-216 | in mock mode the mock is asked once about these events under this key, and what it answers counts |
| DeliveryEffects.RecordsTell | app/delivery.py:421-493 | the record of an event is generated if nothing was sent, and posted if and only if its request went through and its own verdict, one of the answer's for its lot and CTE, does not reject it |
| Delivery.DeliverInChunks | app/delivery.py:330-338 | the loop sends the remaining pieces one by one until it is told to stop |
| Delivery.BuildStoredRecords | app/delivery.py:445-493 | record i is built from event i, parent list i and the verdict paired with event i |
| Delivery.BuildImportRecords | app/controller.py:586-603 | each chunk's records are built against its own outcome and its own slice of the parent lists |
| DeliveryTotals.ChunksAreAPrefix | app/delivery.py:330-338 | stopped anywhere, the chunks are the events cut from the start into pieces of 1 to cap, all full but the last, and all of them if never stopped |
| DeliveryEffects.SendingStopsAtRefusal | app/delivery.py:330-338 | the requests stop at the first refusal and not before, each answered by the service the one before left: so there are as many as there are pieces, or fewer if one is refused first |
| DeliveryTotals.ImportIsFaithful | app/delivery.py:117-217 | under new keys each chunk of a mock import fails as a whole or gets every event's own verdict and their exact counts |
| DeliveryTotals.ImportAddsUp | app/controller.py:563-612 | the records of a mock import are posted and failed exactly as often as its summary counts, and together there are as many as events sent |
| DeliveryTotals.ImportKeepsEvents | app/controller.py:586-603 | record i of an import is about event i and carries parent list i, wherever it stops |
| DeliveryTotals.AggregateSums | app/delivery.py:496-566 | one chunk or many, the summary's counts are the sums and its status names the worst outcome |
| DeliveryTotals.ChunkAddsUp | app/delivery.py:421-442 | a rejected event's record is failed though its request was posted: records posted and failed equal the outcome's counts |
| DeliveryTotals.RecordTellsOutcome | app/delivery.py:421-442 | whatever a service answers, a record is posted exactly if it has no error and a time of success, and its own rejection is its error |
| Retry.GroupBySourceAndKey | app/controller.py:888-896 | each candidate is in exactly one group, that of the source it goes out under and its stored key, in order |
| Retry.RetryGroup | app/controller.py:932-985 | a key is used again exactly when no record of the group ever had an answer, and each record is updated from its own place in the group |
| Retry.RetryKeepsHistory | app/controller.py:960-985 | a retry counts one more attempt, keeps the record's identity and any earlier time of success, takes the new verdict, and leaves an error exactly on a record that is not posted: the failure's own, or the rejection |
| RetryTotals.RetryDelivery | app/controller.py:898-985 | the loop over the groups rewrites each group against its own outcome and adds up their counts, until the store moves |
| RetryEffects.GroupsAreRight | app/controller.py:888-896 | however the candidates are grouped, a group holds exactly those that go out under its source and stored key, an empty one counting as none, and each is in the group of one key |
| RetryEffects.GroupsKeepOrder | app/controller.py:888-896 | in the order of the candidates |
| DeliveryEffects.RetryingStopsAtRefusal | app/controller.py:905-957 | the groups go out in turn up to the first refusal and not further, each under its stored key if there is one and none of its records has an answer, else under a new one |
| RetryEffects.RetryRewritesOnlyEligible | app/store.py:724-738 | a retry rewrites no record but failed ones it was asked for under that key, and keeps their number, id, event and parents; dropped, it leaves the log |
| RetryEffects.IngestedIffAccepted | app/controller.py:905-980 | over any run of imports and retries, what counts as ingested is exactly what the mock accepted when it looked at it, never a replayed answer |
| RetryEffects.FlightsDo | app/controller.py:829-1005 | of overlapping calls, taking records up touches only the calls under way, delivering them only the service, and a commit only the log, where new records go behind and rewritten ones where their ids still are |
| RetryTotals.RetryAddsUpIff | app/controller.py:926-985 | wherever it stops, `posted` and `failed` together count the records rewritten; `posted` is short by exactly what the cache tells beforehand, and each is right if and only if no group is to be replayed a cached answer of its size with a rejection that none of its events takes |
| RetryTotals.LeftIsMissed | app/controller.py:938-944 | what one group's request leaves over is what its cached answer says beforehand; a fresh or failed one leaves nothing |
| RetryTotals.IngestKeepsCounts | app/mock_service.py:434-457 | every response the mock gives or remembers counts its own verdicts, as these totals rely on |
| RetryTotals.LeftOverReadsPosted | app/delivery.py:403-442 | for an answer of the request's size, as many events read posted as it accepts, and one more for each rejection that no event took |
| RetryTotals.FreshLeavesNothing | app/controller.py:926-985 | an answer that carries each event's own verdict leaves nothing over |
| RetryTotals.StrangersRejection | app/delivery.py:403-442 | a rejection of another lot: the record reads posted while the answer accepts nothing |
| RetryTotals.SplitGroupMiscounts | app/controller.py:926-985 | a reachable run: two records throttled under one key, the first retried and rejected, the second replayed that rejection: it reads posted and its retry reports none posted |
| RetryFlights.PostedMeansIngestedIff | app/controller.py:838-1005 | however the snapshots, requests and commits of imports and retries overlap, with any failures and dropped commits, records that read posted were ingested throughout if and only if no commit is misled: replayed an answer of its own size in which an event it puts in the log, not ingested by then, is accepted or not mentioned |
| RetryFlights.LandHonestIff | app/controller.py:990-1005 | one commit keeps posted meaning ingested if and only if it is not misled |
| RetryExact.StepHonestIff | app/controller.py:926-985 | when nothing overlaps: one import or retry keeps it so if and only if its request is not let through, held and replayed with an answer of the group's size in which an event not ingested yet is accepted or not mentioned |
| RetryExact.PostedMeansIngestedIff | app/controller.py:926-985 | and so over any run of them, whatever the keys |
| RetryExact.WholeIsNeverMisled | app/controller.py:926-942 | retries under used keys that take every record waiting under them are never misled |
| RetryRuns.PostedMeansIngested | app/controller.py:926-985 | so then a record that reads posted was ingested |
| RetryRuns.RunKeepsSound | app/controller.py:926-942 | over such runs a cached answer under a key answers exactly the records still waiting under it |
| RetryRuns.Served | app/mock_service.py:348-358 | a keyed request to the mock raises and changes nothing, or is answered with each event's own verdict, freshly or from the cache |
| RetrySplit.SplitGroupLies | app/store.py:724-737 | two records that failed under one key, retried one at a time: the second reads posted and was never ingested |
| MockCache.CacheRefinesMemory | app/mock_service.py:348-358 | over any run the bounded cache holds exactly the 1024 most recently touched distinct keys in touch order, each with the last fresh answer given under it |
| MockCache.AnswersRefine | app/mock_service.py:348-457 | every call answers as a service with unbounded memory would, a replay leaves the chain alone, and a forgotten key is ingested afresh |
| MockCache.HeldIsRecent | app/mock_service.py:451-457 | a key is held if and only if fewer than 1024 other keys were touched since, and its distance from the newest end is how many |
| MockChain.TipIsFold | app/mock_service.py:418-431 | over any run the chain tip is the fold of the hash over all accepted events in order since the last reset; what raised, was rejected or was replayed is not in it |
| MockChain.AcceptedCarriesTip | app/mock_service.py:418-433 | each fresh verdict names its own event, and an accepted one carries the fold up to and including it |
| MockChain.AcceptedAreDistinct | app/mock_service.py:393-403 | two accepted events of one batch never share a batch key |
| MockChain.ConfusedIffClash | app/mock_service.py:393-403 | events of two lots that differ in CTE, lot, time as written or location can share a batch key if and only if one lot code is the other, a bar and a time, followed by its end or another bar |
| MockChain.BatchKeyIsExact | app/mock_service.py:393-400 | for two lot codes that are not so related, equal batch keys mean equal CTE, lot, time as written and location, and the other way round |
| MockChain.DuplicateIffRepeated | app/mock_service.py:393-403 | in a batch without two such lot codes an event is called a duplicate if and only if an earlier one agrees in all four |
| MockChain.RepeatNoticedIff | app/mock_service.py:393-403 | an event repeated with the same CTE, lot, instant and location is noticed if and only if its time is written with the same UTC offset |
| MockChain.TwoOffsetsPass | app/mock_service.py:393-403 | one event written with two offsets is accepted twice |
| MockChain.WindowIsEnforcedOrCounted | app/mock_service.py:374-389 | a stale event is rejected as such if and only if the window is enforced, and counted as bypassed if and only if it is not |
| MockChain.BarsCollide | app/mock_service.py:393-403 | a lot code that spells out another's makes an event be refused as a duplicate of one of another lot |
| MockService.MockRegEngineService.Ingest | app/mock_service.py:286-458 | the method that updates chain and cache in place gives the specified state and answer, which `RefusedIff`, `AnswerIsRight`, `RememberedUnderItsKey`, `TipIsFold` and `AnswersRefine` say the meaning of |
| MockService.MockRegEngineService.CheckRequest | app/mock_service.py:303-346 | the signature gate, friction, the batch bounds and any one field fault fail the whole request, in that order |
| MockVerdicts.RefusedIff | app/mock_service.py:303-346 | a request fails as a whole, and changes nothing, if and only if it is unsigned, meets friction, has fewer than 1 or more than 500 events or one with a field out of bounds; the first that applies gives the status |
| MockVerdicts.AnswerIsRight | app/mock_service.py:370-446 | the answer to a request that is let through and not replayed has one verdict an event: it accepts if and only if the event is in the window or the window is not enforced, it is located, it is complete and no earlier one of the batch has its key, and holds each fault if and only if its own condition fails; accepted, rejected and stale events are counted as they are |
| MockVerdicts.RememberedUnderItsKey | app/mock_service.py:348-370 | a request without a key, or under an empty one, is neither replayed nor remembered; one that is answered under a key is the newest remembered |
| MockVerdicts.GlnsTellPlacesApart | app/mock_service.py:393-400 | in the batch key GLNs tell places without a name apart |
| MockVerdicts.NamesHideGlns | app/mock_service.py:393-400 | and count for nothing where there is a name |
| MockService.MockRegEngineService.LookAtEvents | app/mock_service.py:370-433 | the loop over a batch gives the verdicts, counts and chain tip that `AnswerIsRight` and `TipIsFold` are about |
| MockService.MockRegEngineService.Reset | app/mock_service.py:282-284 | chain and cache start over |
| Resume.ResumeChainHash | app/mock_service.py:130-148 | the newest mock record with a chain hash gives the tip |
| Resume.RestartResumes | app/mock_service.py:130-148 | after any run of committed batches under new keys that no rotation trimmed, raising ones and those sent elsewhere included, the tip read back is the service's own |
| Resume.Restart | app/mock_service.py:130-148 | so reading the tip back from that log gives the restarted service its own chain |
| ResumeRetry.TipRecoveredIff | app/mock_service.py:130-148 | over any run of imports and retries, raised, fresh or replayed, committed or dropped, under a hash without collisions: the tip read back is the service's own if and only if the last operation that got an event accepted afresh was committed and no record behind those it got accepted hands a hash on, or a later commit put right the newest hash of the log |
| ResumeRetry.StepRightIff | app/mock_service.py:130-148 | one operation, told from the log and cache before it: newly accepted events make the tip right if and only if they are committed and not overtaken; a commit that rewrites hashes otherwise does if and only if the last hash carried afterwards, cached or old, is the tip; any other leaves it as it was |
| ResumeRetry.AnsweredHands | app/mock_service.py:348-433 | the hash a record hands on after a request is told beforehand: that of the cached verdict paired with it, or the link of its accepted event |
| ResumeRetry.TracedIsNew | app/mock_service.py:418-431 | a fresh answer that accepts something always leads to a tip that no record hands on yet |
| ResumeRetry.RetriedTipIsLost | app/mock_service.py:130-148 | a throttled event retried after another was accepted: the restarted service would continue from the tip before it |
| ResumeRetry.SecondRetryRecovers | app/mock_service.py:130-148 | a retry dropped at its commit loses the tip, and repeating it within the replay window puts it back |
| Engine.LegitFlowEngine.NextEvent | app/engine.py:119-140 | in every state of a runnable preset the next event exists, and the pools, lots and queue change by one allowed move that it tells of |
| Engine.LegitFlowEngine.ChooseAction | app/engine.py:157-174 | the action drawn always has weight, so its pools and tiers are not empty |
| Engine.LegitFlowEngine.AdvanceTime | app/engine.py:627-639 | the clock moves by between the least and the most minutes, or to the live ceiling if that comes first, or by one smallest step if it is there already |
| Engine.LegitFlowEngine.Cool | app/engine.py:231-252 | one harvested lot moves to the cooled pool and is changed in place |
| Engine.LegitFlowEngine.InitialPack | app/engine.py:254-300 | one source lot is used up and one packed lot made from it |
| Engine.LegitFlowEngine.Ship | app/engine.py:302-362 | one lot leaves its pool for a site of the tier its pool and the preset's odds allow, from where it stands |
| Engine.LegitFlowEngine.Receive | app/engine.py:364-404 | one lot leaves transit and joins the processor, distribution or retail inventory as its shipment's next stage says, standing at the shipment's destination; the other two stay |
| Engine.LegitFlowEngine.Transform | app/engine.py:406-596 | the sampled lots are used up, outputs and rework are made, and every lot made has its own event, handed out or queued |
| Engine.LegitFlowEngine.LotsStandWhereTheyBelong | app/engine.py:364-380 | in every state each lot in a pool stands at a site of that pool's tier, processors, distribution centres and retailers included, and each shipment is bound for a site of the tier its next stage names |
| Engine.RemoveByValue | app/engine.py:408-409 | filtering by value equality takes out exactly the sampled lots when codes are unique |
| Engine.SameCodeSameLot | app/engine.py:408-409 | and codes are unique in every reachable state |
| Engine.TransformMoves | app/engine.py:406-464 | a transformation's draws make it an allowed move |
| Engine.PickOne | app/engine.py:408-408 | sampling without replacement keeps the picks different and the rest intact |
| FlowRuns.RunKeepsLots | app/engine.py:99-111 | over any run each lot is in exactly one pool, in transit or used up, codes never repeat, quantities are positive, and no more lots are harvested than the target |
| FlowRuns.RunTellsInOrder | app/engine.py:406-409 | over any run event times strictly increase, queued ones included, and each parent named is the event's own lot or an older one told of before |
| FlowRuns.RunKeepsShipments | app/engine.py:316-338 | over any run each shipment is bound for a processor, a distribution centre or a retailer as its next stage says |
| FlowStory.LastEventTells | app/engine.py:231-404 | over any run the last event about a lot tells where it is: harvested, cooled, packed, under way, received or transformed |
| FlowStory.RunNamesRightly | app/engine.py:285-404 | over any run every event names the right parents: none for a source, the lot itself when cooled, the one lot packed, all inputs of a transformation, and what the lot was made from when shipped or received |
| FlowStory.DrawsWithinBounds | app/engine.py:254-423 | every allowed move is within its numbers: the harvest target and the scaled quantity range, 92 to 102 percent packed, the four ways a lot may ship, the preset's input counts, two or three outputs, 78 to 91 percent yield, 6 to 14 percent rework |
| FlowRuns.MoveConserves | app/engine.py:231-261 | a move leaves every lot somewhere: what is anywhere afterwards is what was, plus what it made |
| FlowRuns.MoveKeepsGood | app/engine.py:119-140 | every allowed move keeps all of this |
| FlowRuns.OnlyHere | app/engine.py:99-111 | a lot of one pool is in no other |
| FlowRuns.SomethingToDo | app/engine.py:172-173 | some action always has weight, so the fallback harvest is never needed |
| FlowRuns.TransformKeepsMass | app/engine.py:413-423 | outputs and rework together are the gross output, or a unit more than the rework if that is more |
| EngineLineage.RunHasSoundLineage | app/engine.py:446-464 | over any run, the lineage graph of the records stored of any prefix of what the engine handed out has no link to a lot without an earlier record and no cycle |
| EngineLineage.EmittedInOrder | app/engine.py:119-140 | over any run the events handed out, queued ones included, are the events told, in the same order |
| EngineLineage.EmittedAsTold | app/engine.py:119-140 | and each has the kind, lot, quantity, time and parents of the event told |
| EngineLineage.NamedLotsShareLineage | app/engine.py:362-404 | over any run every lot an event names, a shipment's parents included, is connected to the event's own lot by the stored records, and all records of both are in one lineage |
| EngineLineage.NoCycle | app/engine.py:466-484 | no walk from parent to child returns to where it began |
| EngineLineage.EveryLinkIsReal | app/store.py:852-875 | so the edges over an engine's log leave out no parent link |
| Quantities.SplitQuantity | app/engine.py:678-686 | the parts sum exactly to the total, every part but the first is its weight's share to the nearest cent, and for totals of at least one unit and up to three parts all are positive |
| Quantities.SplitIsExact | app/engine.py:678-686 | for any weights between 0.8 and 1.4 and either rounding of ties |
| Quantities.ShareTimes | app/engine.py:681-683 | a share is to the total as its weight is to all the weights |
| Scenarios.ScaleKeepsWellFormed | app/scenarios.py:402-466 | a preset can run if and only if it can at every scale |
| Scenarios.ScalesNest | app/scenarios.py:402-420 | each scale's tiers begin with the smaller scale's, its target is no smaller, empty tiers stay empty and enterprise tiers reach their size |
| Scenarios.ScaleScenario | app/scenarios.py:402-466 | the loops that grow the tiers give the scaled preset |
| ScaleEffects.SmallIs | app/scenarios.py:420-435 | small keeps one site a tier and two retailers, half the target but one, at most a fifth to processing and half the transformations' weight but one, and changes nothing else |
| ScaleEffects.EnterpriseIs | app/scenarios.py:437-466 | enterprise grows the tiers it has to 12, 4, 4, 3, 5 and 10 sites, quadruples the target and changes nothing else |
| ScaleEffects.MidsizeIs | app/scenarios.py:417-418 | midsize is the preset as authored |
| ScaleEffects.ClonesGoRound | app/scenarios.py:439-455 | the sites added repeat the authored ones in turn, numbered from two on, under ids that go up by one |
| ScaleEffects.QuantitiesScale | app/scenarios.py:380-384 | source quantities are a quarter, once or four times the product's range |
| Scenarios.Expand | app/scenarios.py:439-455 | a tier keeps its authored sites first and grows by clones to its target; an empty one stays empty |
| Scenarios.GeneratedGlnsAreNew | app/scenarios.py:397-399 | enlarging adds sites whose GLNs differ from each other's and from every authored one below the generated range |
| Scenarios.MakeGln | app/scenarios.py:69-76 | thirteen digits with a valid check digit |
| ScaleEffects.GlnSpellsOut | app/scenarios.py:69-76 | a GLN spells out the company prefix and the location's id |
| ScaleEffects.ThirteenCheck | app/scenarios.py:69-76 | its check is that of section 7.9: the odd places and three times the even ones make up a multiple of ten |
| ScaleEffects.SsccSpellsOut | app/engine.py:695-706 | an SSCC spells out the extension digit, the company prefix, the day of the year and six digits of the serial |
| ScaleEffects.LotCodesSpellOut | app/engine.py:606-609 | a plain lot code spells out its date and serial, an SGTIN the company, item reference, date and serial |
| ScaleEffects.PaddedSpellsOut | app/engine.py:606-609 | and the serial, padded to six digits, is spelled out in full however large |
| ScaleEffects.ItemReferenceFits | app/engine.py:688-693 | an SGTIN's item reference always has five digits |
| Gs1.EngineCheckDigit | app/engine.py:708-712 | counting from one, the loop gives the check digit |
| Gs1.GlnCheckDigit | app/scenarios.py:69-76 | counting from zero with the weights turned round, the other loop gives the same one |
| Gs1.CheckDigitIsTheOne | app/engine.py:708-712 | the check digit is the one digit that makes the weighted sum a multiple of ten |
| Gs1.SingleErrorIsCaught | app/engine.py:708-712 | any single wrong digit is caught |
| Gs1.SwapIsCaughtIff | app/engine.py:708-712 | a swap of neighbours goes unnoticed if and only if they are equal or differ by five |
| Gs1.MakeSscc | app/engine.py:695-706 | eighteen digits with a valid check digit |
| Gs1.SsccsDiffer | app/engine.py:697-704 | serials less than a million apart give different SSCCs on any days; a million apart on one day they collide |
| Gs1.PlainCodesDiffer | app/engine.py:606-609 | plain lot codes of different serials differ whatever the dates |
| FlowRuns.PlainCodesMeet | app/engine.py:606-609 | so with eight-character dates the plain codes meet what the run theorems ask of lot codes |
| FlowRuns.SgtinCodesMeet | app/engine.py:688-693 | and with six-character dates the SGTINs do |
| Gs1.SgtinCodesDiffer | app/engine.py:688-693 | so do SGTINs |

## Left out

- The controller is a transition system on values, not a class of async methods: the order of
  statements between two awaits is one step, and `asyncio` fairness is not modelled beyond
  "somebody can move, and every operation makes only so many moves".
- `shutdown`, its timeout and cancellation, the condition that wakes SSE readers, and log lines.
- ControllerSafety.CommitReportsWhatItAdded: a retry's `posted` and `failed` counts are not in it, only what it did to the log; RetryTotals has the counts.
- HTTP routers, authentication, tenancy, the console, the live client, HMAC and pydantic parsing; a live response is arbitrary.
- Unparseable and half-written lines, temporary files, fsync order and retired stores: a rewrite is the old file or the new one, and a failed append leaves whole lines.
- Store.EventStore.AllRecords: a stamp never stands for two contents, as the cache itself assumes.
- `lineage_nodes`, `stats`, date filters, exports and audit checks, which only look up and copy fields.
- The KDE tables and industry adapters: an event is given as complete and located or not, and the engine's events carry lot, CTE, quantity, time, location and parents.
- Reference numbers, carriers, descriptions and packaging of the engine's lots.
- MockService.MockRegEngineService.Ingest: error messages are a tag, not their wording, and each event has at most one missing-KDE fault.
- Floating-point error: a drawn quantity is any cent within its rounded range, and a split's weights are exact reals with ties rounded either way.
- The shipped presets themselves; what every preset must meet to run is `WellFormed`.
- `failed_delivery_records`: how many of the failed records a retry takes up is arbitrary.
- Retry runs: a group is given by a set of ids and a key, which covers the groups of one source; a retry of several groups is the sequence of its groups' retries; the mock's `reset` is not in these runs.
- RetryRuns.PostedMeansIngested: a retry is one step here, as in RetryExact and ResumeRetry, so an import or another retry between its snapshot and its commit is only in the runs of RetryFlights; the guard on whole groups is sufficient, and the exact condition is in RetryExact and RetryFlights.
- RetryRuns.RunKeepsSound: a retry is one step here too.
- ResumeRetry.TipRecoveredIff: the runs have no rotation, and a retry is one step.
- Store runs: other processes write only in the runs of StoreCache, not in those of StoreRuns.
- Resume.RestartResumes: it stops at the first rotation, which may archive the record that carries the tip.
