# The hub's protocols, modelled and proved

The hub keeps all its state in one serializable document store and builds a set of protocols on it: a
queue of repository events for each machine, the recovery of missed webhooks, GitHub installations
bound to identities, the projection of webhook deliveries, machine and peer credentials, a poller, and
a limit on reading the export. This project models each of them and proves what it promises, over every
input and every run.

`dafny verify dfyconfig.toml` checks everything.

## How it is modelled

A store is a value with one map for each collection (`Documents`), keyed by document ID; an ID that is
a hash is replaced by what it is the hash of. For each atomic step there is a function that says what
it answers and what it does to the documents. The classes perform the same steps the way the services
do, through a `Transaction` that cannot read after it has written, document by document and loop by
loop, and each method is proved against its function.

Anything outside a transaction is a step of its own. The modules whose names end in `Runs` interleave
those steps in any way, with crashes, and prove what every reachable state keeps; those ending in `Laws`
draw the conclusions. Laws are told by what goes in, by stored fields and by the history of a run, and not
by the functions that specify the steps, so that a step that decided otherwise would break one of them. Where the code does not keep a promise, the run or input that breaks it is there
beside the exact condition under which it does.

| modules | what they model |
|---|---|
| `Cursor`, `EventQueue`, `EventQueueRuns`, `EventQueueLaws`, `EnqueueLaws` | repository events: enqueue, three-step poll, acknowledgement |
| `Listing`, `ListingLaws`, `Redelivery`, `RedeliveryRuns`, `RedeliveryLaws`, `SweepLaws` | the missed-webhook sweep and its memory |
| `ConnectionState`, `Installations`, `InstallationRuns`, `InstallationLaws`, `BindingLaws` | installation bindings, indexes, chunks, lifecycle events |
| `ConnectionFlow`, `Lineage`, `ConnectionRuns`, `ConnectionLaws` | the OAuth chain from Begin to a binding |
| `Deliveries`, `DeliveryRuns`, `DeliveryLaws`, `MergeView`, `MergeLaws` | delivery claims and the public merge view |
| `Credentials`, `CredentialRuns`, `CredentialLaws` | enrolling, inviting, rotating, blocking |
| `PollIds`, `Poller`, `PollerRuns`, `PollerLaws` | the poller, on top of the event queue |
| `ExportLimiter` | the token bucket of the export |
| `Wrappers`, `Text`, `Sorting`, `Transactions` | what they share |

Clock readings, random texts and the outcomes of calls to GitHub are parameters. Form checks (names,
links, field patterns) are boolean parameters or fields. Where a theorem takes something for granted it
is a named predicate: `Disciplined` (machines poll with cursors they were given), `AllListed` (what
GitHub lists comes from the original delivery or from the hub's own calls, soon enough after the start of
the sweeps that made them, and clocks do not run back), `AllTimely` (no lease runs out while its holder
is at work, and no commit's answer is lost), `Sensible` (tokens are drawn well formed and the clock is
set), `AllPlain` (owners without an underscore).

## Where the code and its documentation differ

- `hub/poller/poller.go:433-436` calls the flattening of repository names injective. It is not:
  `a_b/c` and `a/b_c` share identifiers, and a push to one can hide a push to the other at the same
  commit. It is injective between owners without an underscore.
- A push the poller sees is not always queued. A repository that returns to a commit it was queued at
  before, by a forced push there and back or by a default branch renamed at the same commit, gets that
  commit's identifier again (`hub/poller/poller.go:336-352`), is answered as a duplicate, remembered, and
  never queued. It is queued if and only if no head with its identifier was queued before.
- `hub/redeliver/redeliver.go:66-69` calls the interval the minimum gap between two redeliver calls for a
  GUID. It is the minimum gap between the starts of the sweeps that make them: the record keeps the one
  reading taken before the token and the listing (line 282), and a daemon that restarts sweeps at once. A
  call that goes out four minutes into its sweep can be followed by another 56 minutes later. The gap is at
  least the interval less that delay, and at least the interval if and only if there was no delay. For the
  same reason the retention protects a pruned GUID when GitHub lists the redelivery soon enough after the
  sweep's start, rather than after the call.
- Acknowledgements aside, a cursor may hold newlines anywhere, which Go's base64 decoder skips, so
  several strings decode to one sequence (`hub/repository_event_store.go:462-475`).
- A call one interval after the previous one is not always allowed by the export's limit: after the
  clock has gone back, nothing is refilled until it passes the latest reading (`hub/machine_export.go:72-75`).
- Releasing a projection delivery overwrites any status (`api/githubapp/document_store.go:262-264`), so
  committed is not always final: it is final exactly when no call still holds the delivery. A commit whose
  answer arrives is final if and only if no other call holds it then, which `AllTimely` guarantees; one
  whose answer is lost is not, because the call itself is about to release.

## Model

| member | source | states |
|---|---|---|
| Transactions.Transaction.Get | api/githubapp/document_store.go:48-57 | a transaction reads its own snapshot and may not read once it has written; that every callback keeps to this is checked at each call |
| Transactions.Transaction.Put | api/githubapp/document_store.go:48-57 | a write changes the attempt's view only, so an attempt that is not committed leaves no trace |
| Cursor.EncodeThenDecode | hub/repository_event_store.go:455-475 | every non-negative 64-bit sequence survives encoding and decoding; the encoding of a negative one is refused |
| Cursor.DecodeExactly | hub/repository_event_store.go:462-475 | exactly which strings decode to n: the empty one for zero, and otherwise the canonical encoding of n with newlines anywhere in it |
| Cursor.DecodeIsInjective | hub/repository_event_store.go:256-271 | among cursors without newlines, which is all an acknowledgement may carry, no two different ones decode to the same sequence |
| Cursor.BytesRoundTrip | hub/repository_event_store.go:455-460 | whole groups of bytes come back from their unpadded base64url characters (section 5 of RFC 4648) |
| Cursor.CharsRoundTrip | hub/repository_event_store.go:466-469 | whole groups of characters can only be the encoding of the bytes they decode to |
| Cursor.BigEndianRoundTrip | hub/repository_event_store.go:458 | a number within eight bytes comes back from its big-endian bytes |
| Cursor.BigEndianIsOnto | hub/repository_event_store.go:470 | eight bytes come back from the number they spell |
| Cursor.AlphabetIsUrlSafe | hub/repository_event_store.go:459 | the characters are those of base64url (table 2 in section 5 of RFC 4648) |
| Cursor.VersionComesFirst | hub/repository_event_store.go:456-459 | a cursor begins with the contract version, which is one |
| Cursor.EncodedCursorIsClean | hub/repository_event_store.go:455-460 | a cursor the store hands out holds no character an acknowledgement would be refused for |
| EventQueue.RepositoryEventStore.Unique | hub/repository_event_store.go:391-405 | one machine for each ID in the list, and of several with one ID the first |
| EventQueue.RepositoryEventStore.EnqueueForMachines | hub/repository_event_store.go:103-187 | the answer, in every error case, and all seven collections afterwards: nothing changes unless the event is admitted, and then the sequence, the marker, one queue document and one pending refresh for each machine and one status for each identity do |
| EventQueue.RepositoryEventStore.ReadStatuses | hub/repository_event_store.go:143-153 | every identity's status is read before the first write |
| EventQueue.RepositoryEventStore.WriteEntries | hub/repository_event_store.go:163-172 | the loop adds exactly one queue document and one pending refresh for each machine |
| EventQueue.RepositoryEventStore.WriteReceived | hub/repository_event_store.go:173-179 | the loop marks each identity's last received delivery and leaves its last acknowledged one |
| EventQueue.Sorted | hub/repository_event_store.go:219 | the documents scanned, in order of sequence, none lost or added |
| EventQueue.RepositoryEventStore.PollStart | hub/repository_event_store.go:190-209 | where a poll starts: after its cursor, or after what was acknowledged if that is later; and every refusal before that |
| EventQueue.RepositoryEventStore.Query | hub/repository_event_store.go:215-218 | exactly the machine's queue documents, in no particular order |
| EventQueue.RepositoryEventStore.PollScan | hub/repository_event_store.go:219-236 | on well-keyed documents with valid events the scan never fails and hands out the lowest sequences beyond the start, at most limit of them, with their events; on others it fails or hands out valid stored events in ascending order |
| EventQueue.RepositoryEventStore.WalkQueue | hub/repository_event_store.go:220-236 | the loop over the sorted queue: what it picks, how far it gets, and the one way it fails |
| EventQueue.RepositoryEventStore.PollRecord | hub/repository_event_store.go:239-252 | a receipt under the next cursor, and none for an empty batch |
| EventQueue.RepositoryEventStore.Poll | hub/repository_event_store.go:189-254 | the three steps together, with nothing between them: which refusal, or the lowest sequences in the queue beyond both the cursor and what was acknowledged, the cursor for the last of them, and a receipt of exactly that batch; a failure records nothing |
| EventQueue.BatchIsUnique | hub/repository_event_store.go:219-236 | the batch depends on the queue alone, not on the order of the scan |
| EventQueue.PollStartsBeyond | hub/repository_event_store.go:190-209 | a poll is refused exactly for its machine, limit, cursor or a negative acknowledgement, and starts after the later of cursor and acknowledgement |
| EventQueue.TakesTheNext | hub/repository_event_store.go:223-236 | of two batches that agree so far, neither skips what the other takes next |
| EventQueue.RepositoryEventStore.Acknowledge | hub/repository_event_store.go:256-322 | the answer in every case; a stale acknowledgement moves nothing back, and exactly the receipt's events and sequences leave the pending view and the queue |
| EventQueue.RepositoryEventStore.RetirePending | hub/repository_event_store.go:301-305 | the loop deletes the receipt's pending refreshes and no others |
| EventQueue.RepositoryEventStore.RetireQueued | hub/repository_event_store.go:311-315 | the loop deletes the receipt's queue documents and no others |
| EventQueue.UniqueEntries | hub/repository_event_store.go:107-172 | writing for the unique machines is writing for all that were given |
| EventQueueRuns.RunIsSound | hub/repository_event_store.go:116-316 | in every interleaving: markers and sequences correspond one to one, queue documents are keyed by what they hold, receipts hold only sequences delivered under them, and an event leaves a queue only after a recorded batch of that machine contained it |
| EventQueueRuns.NoEventIsLost | hub/repository_event_store.go:116-316 | in every interleaving of enqueues, three-step polls, crashes and acknowledgements in which machines poll only with cursors they were given, every event enqueued for a machine is still queued beyond its acknowledged sequence or was in a batch recorded for it |
| EventQueueRuns.UndeliveredIsAhead | hub/repository_event_store.go:193-236 | an event no batch has contained is still ahead of every poll the machine can make with a cursor it was given |
| EventQueueRuns.RunIsCovered | hub/repository_event_store.go:189-300 | nothing at or below an acknowledged sequence, a given cursor or a recorded receipt was skipped |
| EventQueueLaws.OneSequencePerEvent | hub/repository_event_store.go:116-166 | in every run two queue documents hold the same event exactly when they have the same sequence, and Poll's error for invalid or unordered documents cannot occur |
| EventQueueLaws.RetiredStaysOut | hub/repository_event_store.go:306-315 | an event that left a machine's queue never re-enters it, and its sequence never changes |
| EventQueueLaws.PollIsSteps | hub/repository_event_store.go:189-254 | a poll nothing comes between is its three steps: the same documents, and what it hands out is recorded |
| EventQueueLaws.NextPollMovesOn | hub/repository_event_store.go:206-238 | in every run, a poll with the cursor an earlier one was answered with records only sequences after all of that one's: the batches are disjoint |
| EnqueueLaws.MarkedIffAdmitted | hub/repository_event_store.go:117-128 | in every run an event ID has its marker exactly when an event of that ID was admitted |
| EnqueueLaws.AdmittedIffNew | hub/repository_event_store.go:103-141 | in every run: refused for form, refused for fan-out, duplicate, exhausted or admitted, each exactly when |
| EnqueueLaws.OwnerIsFirst | hub/repository_event_store.go:391-405 | of several machines with one ID the first one owns the event |
| EnqueueLaws.AdmissionWrites | hub/repository_event_store.go:155-172 | an admission takes the next sequence and writes the event for exactly the machines given, each under its own identity, and nothing else in queue or pending view |
| EnqueueLaws.StatusTellsTheLast | hub/repository_event_store.go:143-179 | what every step makes of an identity's status: an admission for one of its machines is its last received, an advancing acknowledgement its last acknowledged, and neither touches the other |
| EnqueueLaws.BatchIsAcknowledgedIff | hub/repository_event_store.go:265-275 | in every run a recorded batch can be acknowledged by its machine and identity, by naming exactly its events in order, and nothing else under its cursor can |
| EnqueueLaws.AcknowledgementIsAnswered | hub/repository_event_store.go:256-281 | in every run each answer of an acknowledgement, exactly when |
| EnqueueLaws.AckGetsAsFarAsItsBatch | hub/repository_event_store.go:282-300 | in every run an acknowledgement gets the machine as far as the last event of its batch, never back, and leaves every other machine where it was |
| EnqueueLaws.AckClearsTheNamed | hub/repository_event_store.go:301-305 | exactly the pending refreshes of the events named go |
| EnqueueLaws.RequestIsFitIff | api/githubapp/repositoryevent/model.go:189-207 | which acknowledgements are well formed |
| EventQueueLaws.EnqueueTwice | hub/repository_event_store.go:117-128 | enqueueing an admitted event again, for any machines, is answered as a duplicate and changes nothing |
| EventQueueLaws.AckNeverRetreats | hub/repository_event_store.go:282-300 | over any run a machine's acknowledged sequence never decreases |
| EventQueueLaws.AckTwice | hub/repository_event_store.go:265-316 | repeating an acknowledgement at once succeeds and changes no state |
| EventQueueLaws.AckNamesItsBatch | hub/repository_event_store.go:268-273 | an acknowledgement is taken only for exactly the events, in order, of a batch recorded for that machine and identity |
| EventQueueLaws.AckRetiresTheNamed | hub/repository_event_store.go:301-315 | in every run an acknowledgement retires from the machine's queue exactly the events it names, and nothing from any other |
| EventQueueLaws.PendingAgreesInEveryRun | hub/repository_event_store.go:163-172 | when a machine's identity is a function of its ID, a pending refresh exists exactly while its event is in that machine's queue |
| EventQueueLaws.SkippingLoses | hub/repository_event_store.go:193-208 | the discipline on cursors is needed: a machine that polls with a made-up cursor and acknowledges what it gets loses what it skipped |
| Listing.Reader.Take | hub/redeliver/redeliver.go:424-434 | one attempt added to what is remembered: GUIDs seen, latest attempts in order, earliest times |
| Listing.Reader.TakePage | hub/redeliver/redeliver.go:418-438 | a page is taken up to its first attempt before the cutoff, and stopping is reported exactly when there is one |
| Listing.Reader.ReadPages | hub/redeliver/redeliver.go:403-440 | the loop reads what the walk over the pages reads, and fails when it does |
| Listing.Reader.Summarize | hub/redeliver/redeliver.go:441-450 | the failed latest attempts and the newest answered one, out of everything taken |
| Listing.ListRecentDeliveries | hub/redeliver/redeliver.go:397-451 | the whole listing: fails exactly when a page asked for fails, and otherwise reports on the attempts walked |
| Listing.WalkOfChain | hub/redeliver/redeliver.go:403-440 | along pages that neither repeat nor exceed the page limit, the early-stopping walk reads exactly the recent part of the whole list |
| Listing.RecentIsWindow | hub/redeliver/redeliver.go:420-423 | in a newest-first list that part is everything within the window |
| Listing.FirstsAre | hub/redeliver/redeliver.go:430-434 | the entries kept are exactly the first ones of each GUID that is not blank |
| Listing.WalkReports | hub/redeliver/redeliver.go:380-451 | for newest-first pages within the limit, the listing is what a reader of the whole list would report: each in-window GUID's latest attempt if it failed, the newest answered latest attempt, and each GUID's earliest time |
| Listing.LatestIsNewest | hub/redeliver/redeliver.go:382-384 | the first entry of a GUID is its latest attempt, so grouping needs no sorting |
| ListingLaws.WalkIsExact | hub/redeliver/redeliver.go:403-440 | whatever the pages: the listing fails exactly when a page it needs fails and no attempt before the cutoff was seen; otherwise it reads the recent part of the pages it can get, at most fifty and none twice |
| ListingLaws.TrailExists | hub/redeliver/redeliver.go:403-440 | every server and start is covered by that law |
| ListingLaws.ReportedByStatus | hub/redeliver/redeliver.go:441-450 | the report told by status codes: failures are those outside the two hundreds, and answered means anything but no status, 502, 504 and 530 |
| Redelivery.Sweeper.Load | hub/webhook_redelivery_store.go:92-112 | a record the sweep could not have written is an error, never an answer |
| Redelivery.Sweeper.Save | hub/webhook_redelivery_store.go:114-122 | a valid record replaces the one of its GUID; an invalid one changes nothing |
| Redelivery.Sweeper.ActOnItem | hub/redeliver/redeliver.go:495-583 | one turn of the loop: record saved, call made, counts and stop, for every combination of stored record, age, interval, attempts, reachability and outcome |
| Redelivery.Sweeper.SpendAttempt | hub/redeliver/redeliver.go:553-583 | the attempt is saved before the call and taken back only when the call failed with a status |
| Redelivery.Sweeper.ActOn | hub/redeliver/redeliver.go:493-590 | the loop over all failed deliveries is the turns one after another, ending at the first systemic failure |
| Redelivery.Sweeper.Delete | hub/webhook_redelivery_store.go:139-162 | the batched loop deletes exactly the named records |
| Redelivery.Sweeper.Prune | hub/redeliver/redeliver.go:599-618 | exactly the records whose last attempt is within the retention remain |
| Redelivery.Sweeper.TransientDelay | hub/redeliver/redeliver.go:645-652 | after k failures in a row, the k-th delay of the series, and the next one is set up |
| Redelivery.BackoffIsBounded | hub/redeliver/redeliver.go:645-652 | the delay doubles with each failure and stays at the cap once it would pass it |
| RedeliveryRuns.RunIsOk | hub/redeliver/redeliver.go:493-618 | across sweeps, crashes and prunes: counts, times and calls of every GUID stay consistent |
| RedeliveryRuns.CallsAreBounded | hub/redeliver/redeliver.go:515-525 | the sweeps that call GitHub for one GUID start at least an interval apart, no call goes out before its sweep starts, and there are never more than MaxDeliveryAge / Interval + 1 calls |
| RedeliveryLaws.GapIsIntervalLessDelay | hub/redeliver/redeliver.go:66-69 | in every run, two redeliver calls for one GUID are as many intervals apart as there are calls between, less what the earlier one was late after the start of its sweep |
| RedeliveryLaws.GapIsExact | hub/redeliver/redeliver.go:66-69 | after a call, every later sweep that asks again calls at least an interval after it if and only if the call was no later than the start of its sweep |
| RedeliveryLaws.RestartCallsTooSoon | hub/redeliver/redeliver.go:282-290 | from nothing stored: a sweep calls late and crashes, the daemon restarts, and the next call comes less than an interval after |
| RedeliveryLaws.RestartIsListed | hub/redeliver/redeliver.go:420-434 | nothing taken for granted of what GitHub lists is broken in that run |
| RedeliveryRuns.AttemptsCoverCalls | hub/redeliver/redeliver.go:553-573 | stored attempts never exceed MaxAttempts and are at least the counted calls GitHub took or rejected; pruned GUIDs included, there are at most MaxAttempts such calls |
| RedeliveryRuns.PrunedNeverReturns | hub/redeliver/redeliver.go:66-85 | a GUID whose record was pruned is never acted on again, so it gets no second budget |
| RedeliveryLaws.PrunedIsListedAgainIff | hub/redeliver/redeliver.go:82-85 | an attempt of a pruned GUID can be back in a sweep's window exactly when GitHub lists it more than Retention less MaxDeliveryAge after the reading the hub last acted by |
| RedeliveryRuns.FirstDeliveryIsFixed | hub/webhook_redelivery_store.go:47-56 | while a record is stored its first delivery never changes, and giving up is for good |
| RedeliveryRuns.AbandonedIsNeverTouched | hub/redeliver/redeliver.go:500-502 | a GUID given up on is never called again, before or after its record is pruned |
| RedeliveryLaws.ReportedIsInWindow | hub/redeliver/redeliver.go:397-451 | every item of a reported listing is in the window a run takes for granted, with the earliest time the listing gives |
| RedeliveryLaws.PassIsSteps | hub/redeliver/redeliver.go:493-590 | a whole pass nothing interrupts is a run of the separate steps: the same records, the same calls for every GUID, and the same end |
| SweepLaws.DecisionIsExact | hub/redeliver/redeliver.go:495-560 | told by status, ID and times: when an item is asked for, when its attempt is spent, when it is given up on, what is saved, and that everything else is left alone |
| SweepLaws.OutageSpendsNothing | hub/redeliver/redeliver.go:470-478 | in every run in which nothing is seen to be answered, a GUID costs no attempt and is given up on only once it is older than the maximum age |
| SweepLaws.AttemptsAreExact | hub/redeliver/redeliver.go:553-583 | in every run without a crash in the middle of an item, the attempts stored are exactly the counted calls that were not taken back, and only systemic failures are |
| SweepLaws.RejectionGivesUpIff | hub/redeliver/redeliver.go:574-584 | a rejection gives a GUID up exactly when it was the third counted attempt |
| SweepLaws.PassTallies | hub/redeliver/redeliver.go:493-590 | a pass reports what it did: counted calls taken, uncounted calls answered, and GUIDs newly given up on |
| SweepLaws.ItemStopsIff | hub/redeliver/redeliver.go:495-573 | one item ends the pass exactly when it cannot be read, what is to be saved cannot be, or its call was not answered |
| SweepLaws.PruneKeepsIff | hub/redeliver/redeliver.go:599-618 | a prune keeps a record exactly when it was acted on within seven days |
| Installations.ChunksKeepTheList | hub/installation_store.go:600-607 | cutting a repository list into chunks and joining them gives the list back |
| Installations.ChunkSizes | hub/installation_store.go:288-295 | no chunk is empty or over a thousand, and all but the last are full |
| Installations.WithoutHolds | hub/installation_store.go:584-598 | what is left after a removal is exactly the repositories whose ID was not removed |
| Installations.WithChunksHolds | hub/installation_store.go:289-295 | writing chunks under a generation sets exactly the documents numbered from zero and no others |
| Installations.InstallationBindingStore.CompleteIdentityInstallationBinding | hub/installation_store.go:199-313 | the answer in each of nine refusals, and all seven collections once bound; refused, nothing changes |
| Installations.InstallationBindingStore.ReadLists | hub/installation_store.go:218-279 | the identity and both indexes with the new member in place, or the first reason against it |
| Installations.InstallationBindingStore.WriteRepositories | hub/installation_store.go:288-295 | the offset loop writes the chunks of the list and nothing else |
| Installations.InstallationBindingStore.ReadRepositoryChunks | hub/installation_store.go:567-582 | the counted reader: the chunks in order, or the error for a missing one |
| Installations.InstallationBindingStore.RemoveRepositories | hub/installation_store.go:584-598 | the nested loop leaves the joined chunks less the removed IDs |
| Installations.InstallationBindingStore.ChunkRepositories | hub/installation_store.go:600-607 | the offset loop cuts the list into its chunks |
| Installations.InstallationBindingStore.ApplyInstallationLifecycle | hub/installation_store.go:417-537 | the answer in every case and the documents afterwards; on any error, and for a delivery already recorded, nothing changes |
| Installations.InstallationBindingStore.GatherAll | hub/installation_store.go:462-518 | every update is worked out, and the first error found, before the first write |
| Installations.InstallationBindingStore.WriteUpdates | hub/installation_store.go:519-531 | the loop writes each update's chunks and header |
| Installations.InstallationBindingStore.QueryChunks | hub/installation_store.go:399-403 | an unordered scan of exactly the documents under one generation |
| Installations.InstallationBindingStore.IdentityHasRepositoryEntitlement | hub/installation_store.go:379-412 | true exactly when the installation is live and some document under its current generation holds the repository |
| InstallationRuns.UpdatesReachAll | hub/installation_store.go:434-518 | the index an event goes by reaches every binding the event concerns, and no other |
| InstallationRuns.LifecycleSucceeds | hub/installation_store.go:417-537 | on documents this store wrote a first delivery never fails and changes exactly the bindings the event concerns |
| InstallationRuns.NewGenerationStores | hub/installation_store.go:508-530 | a generation ended by a new delivery holds exactly the chunks of what is left |
| InstallationRuns.RunIsOk | hub/installation_store.go:199-537 | in every run: the three views of who is bound agree, every binding's chunks are exactly those of its grant, and header and grant agree |
| InstallationLaws.LifecycleIsSubtraction | hub/installation_store.go:417-537 | applied for the first time, an event leaves a triple (identity, installation, repository) entitled exactly when it was before and the event does not cover it |
| InstallationLaws.RedeliveryChangesNothing | hub/installation_store.go:423-433 | the same delivery at any later time succeeds and changes nothing; another event under its ID is refused |
| InstallationLaws.StoredDataIsSound | hub/installation_store.go:470-506 | the errors for a missing generation, a missing chunk and invalid stored documents cannot occur |
| InstallationLaws.BindingGrants | hub/installation_store.go:281-310 | a binding entitles its identity to exactly its repositories if its installation is live, and touches no other pair |
| InstallationLaws.EntitlementIsGrant | hub/installation_store.go:379-412 | the documents entitle exactly whom the plain record of grants does: last bound, less later removals |
| InstallationLaws.ReadersAgree | hub/installation_store.go:399-410 | the documents under the current generation are exactly chunks 0 to the count, none empty or over a thousand; the scan-based and the counted reader see the same repositories, those of the grant |
| InstallationLaws.IndexesAgreeInEveryRun | hub/installation_store.go:218-279 | an installation is in an identity's list iff the identity is in its index iff the document exists, an identity is in a user's index iff bound to that user, and all lists are sorted, duplicate-free and within 40/10/10 |
| InstallationLaws.LostUntilBoundAgain | hub/installation_store.go:491-516 | what is not granted stays so until that identity binds that installation again |
| BindingLaws.EachActionTakesItsOwn | hub/installation_store.go:417-537 | action by action, in terms of installation, user and repository: whom an event leaves entitled |
| BindingLaws.EventMarks | hub/installation_store.go:491-517 | action by action, the status each binding is left with, and that the delivery is recorded |
| BindingLaws.EventIsAnswered | hub/installation_store.go:417-433 | in every run an event is refused exactly for its form or for a delivery that came with another event |
| BindingLaws.BindingIsAnswered | hub/installation_store.go:199-279 | in every run a binding is made exactly when what GitHub said is sound and for the state given, the state is current and not over, the identity is no other user's, and no limit of 40 or 10 is passed; and which refusal comes first |
| BindingLaws.UnsoundListsStopBindings | hub/installation_store.go:218-279 | on documents it did not write: which list documents stop a binding |
| BindingLaws.IndexIsReadIff | hub/installation_store.go:434-455 | by which index an event goes, and when that stops it |
| BindingLaws.MissingIdentityStopsEvents | hub/installation_store.go:462-470 | an indexed identity that is missing or somebody else stops an event |
| BindingLaws.MissingChunksStopEvents | hub/installation_store.go:496-503 | a header without a generation, or without its chunks, stops an event that takes repositories |
| BindingLaws.BindingRecords | hub/installation_store.go:281-310 | what a binding records of identity, user and installation, and that nothing of any other changes |
| ConnectionFlow.InstallationConnectionService.Issue | hub/installation_store.go:48-67 | a state is stored only under a digest that is free |
| ConnectionFlow.InstallationConnectionService.TransitionState | hub/installation_store.go:84-115 | the current state is consumed and the next issued, together or not at all, and only against the very record that was read |
| ConnectionFlow.InstallationConnectionService.ReplaceState | hub/installation_store.go:117-136 | the record is replaced only against the very record that was read |
| ConnectionFlow.InstallationConnectionService.Begin | hub/installation.go:185-215 | a state is issued only for a viewer who may, with an installation that viewer is known to have |
| ConnectionFlow.InstallationConnectionService.Continue | hub/installation.go:222-292 | in every case which state is offered, left or moved on, and the answer; moving on takes the very challenge stored, authorized by then and not run out |
| ConnectionFlow.InstallationConnectionService.AuthorizeOpener | hub/installation.go:299-327 | success means whoever began presented the very challenge stored, for the first time and before it ran out; and the answer in every other case |
| ConnectionFlow.InstallationConnectionService.CompleteSetup | hub/installation.go:329-362 | a setup state moves on to one for the installation GitHub verified |
| ConnectionFlow.InstallationConnectionService.KeepCredential | hub/installation.go:372-410 | a code is exchanged, or the sealed credential is kept in the state before anything fallible |
| ConnectionFlow.InstallationConnectionService.Complete | hub/installation.go:411-440 | the binding made is the one GitHub's answer gives for the state's own installation, and consumes the state |
| ConnectionFlow.InstallationConnectionService.CompleteOAuth | hub/installation.go:364-440 | both halves with nothing between them |
| ConnectionRuns.RunIsOk | hub/installation.go:185-440 | in every interleaving of callbacks each live state is a stage of one Begin, no two of the same one |
| ConnectionRuns.OneBindingPerBegin | hub/installation.go:185-440 | live states and completed bindings together never exceed the number of begins, and no begin has two |
| ConnectionRuns.BoundIsWhoBegan | hub/installation.go:222-440 | in every run, of whoever is bound: the challenge offered is the one they authorized and the one the opener came back with, within its two minutes; the installation is the one asked for or the one GitHub verified; the credential was sealed for that state; every later callback showed the continuation drawn; and the binding is what GitHub answered, made before the state ran out |
| ConnectionRuns.LiveIsOpened | hub/installation.go:222-327 | the same of every live state past its opener |
| ConnectionRuns.SwapIsCarried | hub/installation_store.go:84-136 | a decision is carried out only on the very record it was made on, before that runs out, or not at all |
| ConnectionRuns.InstallationNeverChanges | hub/installation.go:266-275 | once a live state has a positive installation ID, every later state of its begin and its binding have that one |
| ConnectionRuns.SwappedIsOk | hub/installation_store.go:84-136 | under compare-and-swap a decision from a record read at any time keeps the lineage, if it keeps to that record's |
| ConnectionRuns.ConnectionsRefineTheStore | hub/installation.go:433 | every run of connections is a run of the installation store, so all that holds of those holds of it |
| ConnectionLaws.StateIsReadIff | hub/installation.go:519-535 | exactly which states are read |
| ConnectionLaws.StateFitsIff | hub/installation.go:496-505 | a callback takes a state only at its own stage, and past the first only with the continuation |
| ConnectionLaws.OAuthStateFitsIff | hub/installation.go:507-517 | the OAuth callback takes a state before the exchange with nothing sealed, or after it with what was |
| ConnectionLaws.BeginsIff | hub/installation.go:185-215 | in every run a connection begins exactly for a viewer who asks for no installation or for one bound to them |
| ConnectionLaws.IssuedIff | hub/installation_store.go:48-67 | a state is issued exactly under a free digest, for somebody, with its times set |
| ConnectionLaws.StatesLiveAsLong | hub/installation.go:454-470 | in every run each live state ends as long after its issue as configured, or ten minutes |
| ConnectionLaws.InstallationIsKnownIff | hub/installation.go:199-206 | on any documents, exactly when an installation is known to be a viewer's |
| ConnectionLaws.AuthorizationIsAnswered | hub/installation.go:309-314 | who may authorize which challenge, and what everybody else is told |
| ConnectionLaws.ContinuationIsAnswered | hub/installation.go:230-261 | what each callback of the opener is answered |
| ConnectionLaws.SwapIsAnswered | hub/installation_store.go:84-136 | a decision is carried out exactly on the record it was made on, while that is not over and the next digest is free; otherwise nothing changes |
| ConnectionLaws.ExchangedStateIsHeld | hub/installation.go:400-411 | the second half of the OAuth callback works from the very record the first half stored |
| ConnectionLaws.RefusalIsReported | hub/installation.go:433-440 | how a refused binding is reported |
| ConnectionLaws.OfferGoesThrough | hub/installation.go:231-248 | the first callback offers the challenge drawn, for two minutes or until the state is over |
| ConnectionLaws.AuthorizationGoesThrough | hub/installation.go:309-323 | whoever began can authorize the challenge offered |
| ConnectionLaws.AdvanceGoesThrough | hub/installation.go:250-282 | the opener that comes back in time moves on, to the installation asked for or to choosing one |
| ConnectionLaws.ChoiceGoesThrough | hub/installation.go:337-354 | a verified installation is taken and the continuation stays |
| ConnectionLaws.KeepingGoesThrough | hub/installation.go:397-409 | a credential sealed for the state is kept in it |
| ConnectionLaws.ExchangeAnswers | hub/installation.go:376-396 | what the exchange of a code answers in each case |
| Deliveries.ProjectionEngine.HasDelivery | api/githubapp/document_store.go:229-236 | true exactly for a committed delivery |
| Deliveries.ProjectionEngine.ClaimDelivery | api/githubapp/document_store.go:237-261 | claims exactly what is neither committed nor under a lease still running, and counts the attempt |
| Deliveries.ProjectionEngine.CommitDeliveryAndWakeup | api/githubapp/document_store.go:265-291 | record and wakeup change together, and only the first time |
| Deliveries.ProjectionEngine.UpdateStatus | api/githubapp/document_store.go:298-311 | overwrites whatever status is there and ends the lease |
| Deliveries.ProjectionEngine.WriteDocuments | api/githubapp/document_store.go:179-195 | the documents are set in order up to the first that fails or is of another scope |
| Deliveries.ProjectionEngine.ApplySnapshot | api/githubapp/projector.go:130-140 | repositories, then organizations, then merges: exactly the projections before the failing write are there, the merges only if all are, and success only with everything |
| Deliveries.ProjectionEngine.Process | api/githubapp/projector.go:82-151 | queued exactly when claimed, refreshed, written and committed; after any later failure the record is retryable again if it could be released, and projections and merges are those written before it; otherwise nothing changes |
| Deliveries.WriteAgain | api/githubapp/document_store.go:129-132 | a crash part way through the writes does not show after a retry |
| DeliveryLaws.ClaimsIff | api/githubapp/projector.go:82-104 | a signed delivery with ID and event is processed exactly when it is new, was released, or its lease has run out |
| DeliveryLaws.ClaimRecords | api/githubapp/document_store.go:237-261 | what a claim records, and that one that is not due records nothing |
| DeliveryLaws.ProcessIsSteps | api/githubapp/projector.go:82-151 | an uninterrupted call is the separate steps: the same records and wakeups, and the same answer |
| DeliveryLaws.AttemptsAreClaimsWon | api/githubapp/document_store.go:237-261 | in every run, timely or not, a record counts exactly the claims of its delivery that were won, and exists exactly when there was one |
| DeliveryLaws.WakesItsRepository | api/githubapp/projector.go:141-146 | a wakeup tells the delivery's repository and event, under the trimmed name or a key for all without one |
| DeliveryLaws.WakeupsCoalesce | api/githubapp/document_store.go:280-287 | two deliveries of one repository leave one wakeup, the later one |
| DeliveryLaws.CommitTwice | api/githubapp/document_store.go:273-276 | a second commit changes nothing, the wakeup included |
| DeliveryLaws.WakeupsAreCommits | api/githubapp/document_store.go:265-291 | a wakeup is written only by a commit that takes effect, for a delivery not committed before |
| DeliveryLaws.SnapshotKeepsProjections | api/githubapp/document_store.go:179-195 | whatever is written, in full or up to a failure, projections stay well formed under their own keys, and neither scope touches the other |
| DeliveryLaws.SnapshotAppliesIff | api/githubapp/projector.go:130-140 | a snapshot applies exactly when none of its writes fails |
| DeliveryLaws.SnapshotIsTakenIff | api/githubapp/projector.go:153-188 | exactly which snapshots are taken |
| DeliveryRuns.RunIsOk | api/githubapp/projector.go:99-150 | in every timely run the record of a held delivery is its one holder's claim |
| DeliveryRuns.OneHolderAtATime | api/githubapp/projector.go:99-150 | at most one call is between claim and commit or release for a delivery, and it is not committed then |
| DeliveryRuns.CommittedIsFinal | api/githubapp/document_store.go:250 | in a timely run a committed delivery stays committed |
| DeliveryRuns.FinalIffUnheld | api/githubapp/document_store.go:250-264 | in any state whatever, a committed delivery stays committed in every continuation if and only if no call holds it |
| DeliveryRuns.CommitIsFinalIff | api/githubapp/projector.go:145-150 | a commit that takes effect leaves a final delivery if and only if its answer arrives and no other call holds the delivery |
| DeliveryRuns.OnlyReleaseUndoes | api/githubapp/document_store.go:262-264 | a step un-commits a delivery if and only if it is a release, of a call for it, that goes through |
| DeliveryRuns.QueuedAtMostOnce | api/githubapp/projector.go:145-150 | at most one call ever returns queued for a delivery |
| DeliveryRuns.QueuedLeavesItsWakeup | api/githubapp/document_store.go:280-287 | in every run, timely or not, each call that returned queued has its wakeup in the store |
| DeliveryRuns.ExclusionIsExact | api/githubapp/document_store.go:250 | a second call gets in exactly when the holder's lease has run out |
| DeliveryRuns.LateHolderUndoes | api/githubapp/document_store.go:250-264 | from every state in which a lease has run out under its holder and another call is about to claim, the other commits and the holder's release un-commits |
| DeliveryRuns.ExpiredLeaseQueuesTwice | api/githubapp/document_store.go:262-264 | from nothing stored: a holder that outlives its lease releases what another committed, and the delivery is queued twice |
| DeliveryRuns.LostAnswerUndoes | api/githubapp/projector.go:106-115 | from every state in which a call holds a delivery: its commit takes effect, the answer is an error, and its own release un-commits |
| MergeView.ProjectionWriter.WriteLatestMerges | api/githubapp/document_store.go:140-178 | an invalid batch changes nothing; otherwise the view is filtered, extended, sorted and cut at a hundred |
| MergeView.SortSorts | api/githubapp/document_store.go:164-172 | entries with distinct keys come out strictly newest first, none lost or added |
| MergeView.MergedIsOk | api/githubapp/document_store.go:150-177 | the view stays sorted and at most a hundred long, holds of that repository nothing but the batch, and adds nothing of another |
| MergeView.OnlyTheLastAreDropped | api/githubapp/document_store.go:173-175 | an entry is left out only when the view is full of entries that come before it |
| MergeView.MergeTwice | api/githubapp/document_store.go:129-131 | applying a batch twice is applying it once, even when entries no longer fit |
| MergeLaws.ShownIsOk | api/githubapp/document_store.go:150-177 | after any writes, refused ones among them, the view shows of each repository only entries of the last accepted batch of it |
| MergeLaws.NewestIsFirst | api/githubapp/document_store.go:164-172 | after any writes: later merge times first, then by repository in byte order, then by descending pull request |
| MergeLaws.LeftOutIsNoNewer | api/githubapp/document_store.go:173-175 | an entry an accepted write leaves out was merged no later than any of the hundred kept |
| MergeLaws.NewerIsShown | api/githubapp/document_store.go:159-175 | an acceptable batch of at most a hundred entries newer than everything shown is shown whole |
| MergeLaws.ShownWasSent | api/githubapp/document_store.go:144-163 | every entry shown is well formed and came with an opted-in batch of its repository |
| MergeLaws.OptingOutHides | api/githubapp/document_store.go:156-163 | a repository that opts out disappears and nothing else changes |
| MergeLaws.AcceptedIffAcceptable | api/githubapp/projector.go:170-187 | exactly which batches are accepted |
| Credentials.CredentialStores.RotateMachineCredential | hub/machine_credential_store.go:50-112 | the answer in every case; a peer's machine is never rotated this way, and the old token's document goes with the new one's coming |
| Credentials.CredentialStores.Enroll | hub/machine_enrollment.go:51-88 | the answer in every case, and success means exactly the rotation was made; failure means nothing changed |
| Credentials.CredentialStores.GetPeer | hub/peer_store.go:152-168 | an invalid record is an error, a missing one is not |
| Credentials.CredentialStores.FindPeerByName | hub/peer_store.go:175-202 | some peer of that name if there is one, and an error if any record is invalid |
| Credentials.CredentialStores.Invite | hub/peer_admin.go:104-242 | the answer in every case, in the order the refusals are tried, and the four collections afterwards; failure changes nothing |
| Credentials.CredentialStores.Admit | hub/peer_admin.go:161-237 | the transaction: refusals, and credential, enrollment, trust and statistics written together |
| Credentials.CredentialStores.UpdateTrust | hub/peer_store.go:204-235 | the mutation is applied to the record as stored, and only if the result is valid |
| Credentials.CredentialStores.ResolvePeer | hub/peer_admin.go:278-299 | a peer by ID before a peer by name; success is a machine the text stands for, and every refusal is exact |
| Credentials.CredentialStores.Block | hub/peer_admin.go:304-313 | the peer named, and no other, is blocked and nothing else changed; on documents the store wrote it never fails for a peer that exists |
| Credentials.CredentialStores.Unblock | hub/peer_admin.go:318-328 | the peer named, and no other, is active with a reset pending and nothing else changed; on documents the store wrote it never fails for a peer that exists |
| Credentials.CredentialStores.ResolveMachineCredential | hub/machine_credential_store.go:114-128 | the stored binding of the token, if complete |
| Credentials.CredentialStores.ResolveMachineBearer | hub/machine_enrollment.go:165-195 | the peer-aware resolution of a token |
| Credentials.IdTextIsInjective | hub/machine_credential_store.go:133-136 | one ID text comes from one identity and name, since names hold no NUL |
| CredentialRuns.CredentialKeepsBijection | hub/machine_credential_store.go:95-106 | deleting the old token's document and writing the new one's keeps machines and tokens in correspondence |
| CredentialRuns.CredentialsCorrespond | hub/peer_admin.go:161-237 | over every interleaving, enrollments and credentials correspond one to one, a trust document exists iff that machine's credential has the peer scope, valid and under that machine's ID, and statistics exist with it |
| CredentialRuns.ResolvesIffNewest | hub/machine_enrollment.go:165-195 | a token resolves iff it is the newest issued for its machine and that machine is not a blocked peer |
| CredentialRuns.ResolvedAcrossSteps | hub/machine_enrollment.go:169-194 | with anything between the resolver's two reads: newest at the first, not blocked at the second |
| CredentialRuns.KindIsFixed | hub/machine_credential_store.go:67-86 | a machine enrolled plainly never becomes a peer, and a peer never stops being one |
| CredentialRuns.BlockedIsRefused | hub/peer_admin.go:301-313 | until it is unblocked no token of a blocked peer resolves, not even one reissued meanwhile |
| CredentialLaws.BlockedIffLastBlocks | hub/peer_admin.go:301-328 | in every run a peer is blocked exactly when the last block or unblock of it since it became one is a block |
| CredentialLaws.InvitedResolves | hub/peer_admin.go:161-237 | the token of an invitation that succeeds resolves right after it exactly when the peer is not blocked, to that peer |
| CredentialLaws.FirstInvitationResolves | hub/peer_admin.go:223-236 | the token of a first invitation resolves right after it |
| CredentialLaws.EnrolledResolves | hub/machine_enrollment.go:79-88 | the token of an enrollment that succeeds resolves right after it |
| CredentialLaws.FirstInvitationRecords | hub/peer_admin.go:223-236 | a new peer is recorded active, under its own name, with nothing to reset and nothing counted |
| CredentialLaws.RotationStartsOver | hub/peer_admin.go:207-221 | a rotation revokes the token before, forgets the node, asks for a reset, and keeps trust and statistics |
| CredentialLaws.BlockingRecords | hub/peer_admin.go:304-328 | what a block and an unblock record, and that nothing else changes |
| CredentialLaws.DenotedIsNamed | hub/peer_admin.go:278-299 | in every run the machine a text stands for is the one of that ID, or else one of that name |
| CredentialLaws.NothingIsDenotedIff | hub/peer_admin.go:278-299 | in every run a text is refused exactly when it is blank or neither ID nor name of a peer |
| CredentialLaws.EnrollmentIsAnswered | hub/machine_enrollment.go:51-88 | in every run each answer of an enrollment, exactly when |
| CredentialLaws.InvitationIsAnswered | hub/peer_admin.go:161-185 | in every run the transaction of an invitation succeeds exactly for a new token and a new machine or a peer to be rotated |
| CredentialLaws.InvitationReports | hub/peer_admin.go:104-160 | in every run each answer of an invitation, exactly when |
| CredentialLaws.RotationIsAnswered | hub/machine_credential_store.go:50-94 | in every run each answer of a rotation, exactly when |
| CredentialLaws.UnsoundPeersStopLookups | hub/peer_store.go:152-202 | on any documents, which unsound records stop a lookup |
| CredentialLaws.UpdateIsAnswered | hub/peer_store.go:204-235 | a peer record is replaced exactly by a sound one of its machine |
| CredentialLaws.UnsoundPeerIsReported | hub/peer_admin.go:141-144 | a peer record that is not sound stops an invitation before a token is drawn |
| CredentialLaws.ResolvesExactly | hub/machine_enrollment.go:165-195 | on any documents, sound or not, exactly which tokens resolve and to what |
| Poller.Poller.LoadPollObservation | hub/poll_observation_store.go:73-92 | an observation the poller could not have written is an error |
| Poller.Poller.SavePollObservation | hub/poll_observation_store.go:94-102 | a valid observation replaces the one of its repository |
| Poller.Poller.DeletePollObservation | hub/poll_observation_store.go:104-117 | dropping an observation that is not there is no error |
| Poller.Poller.Reconcile | hub/poller/poller.go:292-356 | for first sight, no change, a push and a rename: what is enqueued, what is remembered, and in which order a failure cuts it short |
| Poller.Poller.TransientDelay | hub/poller/poller.go:217-224 | the delay is the current backoff, which then grows, at most doubling, up to the cap |
| PollerRuns.RunIsOk | hub/poller/poller.go:292-366 | through any crashes, the poller's markers are those of the heads queued, one each |
| PollerRuns.StoredHeadsAreMarked | hub/poller/poller.go:292-356 | every stored head but a first-sight one has its marker in the event store |
| PollerRuns.NoHeadIsQueuedTwice | hub/poller/poller.go:349-366 | no head is queued twice |
| PollerRuns.ReplayChangesNothing | hub/poller/poller.go:358-366 | a replay after a crash between enqueueing and saving changes nothing in the event store and goes on to the save |
| PollerRuns.StoredHeadsWereQueued | hub/poller/poller.go:437-443 | when no owner's name has an underscore, every stored head but a first one was queued as itself at some time |
| PollerLaws.QueuedIffIdIsNew | hub/poller/poller.go:336-366 | in every run, a valid changed reading is remembered in any case, and queued if and only if no head with its identifier was queued before |
| PollerLaws.ReadingIsJudged | hub/poller/poller.go:292-356 | what is made of a reading, by repository, branch and commit, and the event it gives |
| PollerLaws.ObservationIsStoredIff | hub/poll_observation_store.go:73-102 | exactly which observations are stored and which are read back |
| PollerLaws.PlainIsQueuedIffNew | hub/poller/poller.go:336-366 | between owners without an underscore: if and only if that repository was not queued at that commit before |
| PollerLaws.ReturnIsSwallowed | hub/poller/poller.go:336-356 | from nothing stored: pushed from a to b, back to a and to b again, the last push is remembered and never queued |
| PollerLaws.CollidingHeadIsSwallowed | hub/poller/poller.go:433-443 | from nothing stored: of two repositories with one identifier pushed to the same commit, the second push is remembered and never queued |
| PollerLaws.UnderscoredOwnersLosePushes | hub/poller/poller.go:433-443 | so it is for every owner with an underscore inside and the owner left when it is cut there |
| PollIds.HeadIdsAgree | hub/poller/poller.go:437-443 | two heads' identifiers are equal exactly when the flattened repositories and the commits are |
| PollIds.IdsAreSpelled | hub/poller/poller.go:437-443 | how the identifiers are spelled |
| PollIds.FlattenedAgree | hub/poller/poller.go:441-443 | exactly when flattening makes two repositories one |
| PollIds.PlainOwnersAreApart | hub/poller/poller.go:433-436 | the promise of injectivity holds between owners without an underscore |
| PollIds.UnderscoredOwnersCollide | hub/poller/poller.go:433-443 | it fails for every owner with an underscore inside |
| ExportLimiter.Limiter.Allow | hub/machine_export.go:62-82 | the verdict, and one bucket changed |
| ExportLimiter.BucketStaysOk | hub/machine_export.go:72-79 | tokens stay between zero and the burst, and the bucket keeps the latest reading |
| ExportLimiter.RateIsBounded | hub/machine_export.go:17-23 | for any clock readings, ones that go back included, the calls allowed number at most the burst and one more for each interval the latest reading advanced |
| ExportLimiter.AllowedAreEarned | hub/machine_export.go:72-79 | sharper: at most what the bucket held and the advance earned, less what is left |
| ExportLimiter.CallIsExact | hub/machine_export.go:72-82 | a call is counted against exactly what was held and earned up to a burst; a refused one costs nothing |
| ExportLimiter.MachinesAreApart | hub/machine_export.go:62-82 | over any calls of any machines, each machine is counted against a bucket of its own, kept from its first call on |
| ExportLimiter.EachMachineIsBounded | hub/machine_export.go:17-23 | whatever others do and whatever the clock reads, a machine is allowed at most a burst and one call for each second since its first |
| ExportLimiter.BurstIsAllowed | hub/machine_export.go:17-23 | a machine not seen before may make five calls at once, whatever the clock reads |
| ExportLimiter.SpacedCallsAreAllowed | hub/machine_export.go:72-82 | calls an interval apart are all allowed |
| ExportLimiter.AllowedAnIntervalAfterTheLatest | hub/machine_export.go:72-76 | a call is sure to be allowed exactly when it is an interval past the latest reading |
| ExportLimiter.WaitingIsNotEnough | hub/machine_export.go:72-76 | an interval after the previous call is not enough once the clock has gone back |

## Left out

- `cmd/wb`: command wiring, no state of its own.
- HTTP handlers, cookies, CORS and embedded pages: plumbing.
- GitHub REST clients, JWT, RSA, AES, HMAC, zip and JSON decoding: foreign calls; their outcomes are parameters.
- Narration, status summaries, metric formatting and field-form patterns: text built from or matched against single values, with no state behind it.
- Document-store engines: transactions are taken to be serializable and scans to be exact and unordered.
- `internal/agentguard`: table lookups and file-system probes around a scanner of shell commands; it shares no state with the hub.
- Engine errors inside a transaction: an attempt that fails leaves no trace, so they add only a failed answer.
- Identity generations: the path segment of an identity's installations is set once and never changed, so it is part of the key; the check that it is not empty cannot fail.
- `ListIdentityInstallationBindings`: reads the same documents as `IdentityHasRepositoryEntitlement`, once more for all of them.
- `IdentityRepositoryEventStatus` and queued-work counts: projections of documents the model keeps.
- Sorted lists of a binding: a new member is inserted into the stored list, which every run keeps sorted; a list that some other writer left unsorted is not modelled.
- Letter case and white space: ASCII only.
- Poller renames across whole runs: `Poller.Reconcile` models the rename, `PollerRuns` keeps to repositories that keep their name.
- Rate-limit waits of the poller and of the sweep: a wait GitHub recommends replaces the backoff and does not change it.
- Changes on GitHub between a sweep's pages: the listing is one value; what pages change meanwhile is not modelled.
- MergeView.ProjectionWriter.WriteLatestMerges: for entries with equal keys the library sort may leave either order; the model's sort leaves one of them.
- ExportLimiter.Limiter.Allow: floating-point rounding of the token count is not modelled; tokens are reals.
- Poller.Poller.TransientDelay: the reset after a clean tick is not modelled.
