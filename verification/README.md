# Cicerone: verified models

Cicerone keeps a durable index of a Homebrew tap's Git history and shows it as a feed. The index is built in
the background while the program is cancelled, restarted, and has history rewritten beneath it. These modules
model the parts of it where that is hard, and prove what each is for.

- **History indexer** (`CommitGraph`, `HistoryTables`, `HistoryStore`, `IndexerSpec` … `IndexerCoverage`,
  `IndexerBackward`, `IndexerSettled`, `IndexerWork`, `Indexer`). Commits form a first-parent forest. `Indexer.Call` is one `Index` call with the working memory its
  closures share; each write to the store is one atomic transaction. `IndexerSpec.Fault` says where a call is cut
  off, whether the write it was cut off in took effect unobserved, and whether the late flush of a cancelled walk
  did. The methods are proved to compute `IndexerSpec.Index`; the theorems are about that function and about
  `AfterAll`, any list of calls with any heads, requests and faults. `IndexerSettled` says what a call settles in terms
  of heads, requests and tables alone.
- **Sync coordinator** (`CoordinatorSpec` … `CoordinatorMeaning`, class `Coordinators.Coordinator`). Each critical
  section is an event on an explicit state, and `CoordinatorTheorems.Run` is any interleaving of events. The class
  has the program's fields; each of its methods is proved to do what its event does, and whole critical sections to
  keep the object in a state that a run can reach.
- **Download queue** (`DownloadSpec`, `DownloadTheorems`, `DownloadMeaning`, `DownloadHeap`, `DownloadQueue`). The heap with
  back-indices is a class with the sift operations of `container/heap` written out. The queue over it is proved
  to follow the state machine, in which workers take jobs, finish and exit, and each `Close` returns in its own time;
  the runs of that machine are then reasoned about.
- **Feed** (`Text`, `FeedSpec`, `Feed`, `FeedQuery`, `FeedShows`). `FeedSpec` says which events a feed shows without saying in
  which order anything is computed; `Feed` is the builder as it runs; `FeedQuery` adds the predicates of the SQL
  statement and the catalog rows; `FeedShows` says all of it again in times, identities, flags and substrings.
- **Git streams** (`Streams`, `LogParser`, `LogBatch`, `LogGrammar`, `LogWalk`, `Ancestry`, `BlobSpec`, `BlobReaders`). Readers
  over pipes that deliver bytes in chunks of any size: two parsers of the NUL-separated log, the first-parent
  ancestry test over fragmented lines, and the length-prefixed request/response reader of `git cat-file`.
- **Opening the database** (`OpenStore`). Copy, promote and restore over a directory in which any operation may
  fail.
- **Version order** (`Versions`, `VersionOrder`). Comparison of unbounded decimal runs.

## Where the code falls short of the expectation

The code is modelled as it is. Where an expected property fails, a lemma names a run in which it does, and another
says exactly when it holds.

- A completed run does not always leave only events of HEAD. If a forward scan was cut off and HEAD then moved back
  to the recorded head, the next run scans nothing and removes nothing
  (`IndexerExamples.AbandonedForwardScanIsNotReconciled`). It reconciles exactly when every stored event can be
  traced to either head or to a progress row of the run's own scans (`IndexerTheorems.CompletedReconciles`).
- A backward scan leaves out commits that the forward scan of the same call has just seen, so its rows are not all
  the commits down to its frontier (`IndexerExamples.BackwardCursorHasGap`). The cursor of a scan that began without
  rows is exact exactly when it lists no commit above the recorded head, always when HEAD has not moved
  (`IndexerBackward.FreshBackwardCursor`); over all runs, exactly when every commit it covers was below the head that
  was recorded when the cursor came to cover it (`IndexerBackward.BackwardCursorExact`).
- A fallback's checkpoint can hide a key: if the event that made the key unnecessary is removed by a rewrite, the
  resumed fallback skips the checkpointed commit and records the key as exhausted
  (`IndexerExamples.CheckpointHidesKey`). It is right exactly when no checkpointed commit yields the key
  (`IndexerTheorems.ExhaustedIsSound`), and always when the missing set only shrinks from call to call
  (`IndexerCoverage.ShrinkingSearchIsSound`).
- Once all of history has been recorded, a call that asks for a bound records that bound instead
  (`IndexerSettled.CompletedRecords`). What is stored stays (`IndexerSettled.HeadEventsStay`); only the claim shrinks.
- The SQL horizon drops an old row that the caller's own list of exemptions would have kept, when there is no
  query to replace that list (`FeedQuery.CallerExemptionIsDropped`, `FeedQuery.PushDownExact`). No caller in the
  repository sets the list: only the query itself does, at `internal/store/feed.go:223`.
- The stream parser skips empty tokens, so it cannot tell an empty subject unless nothing follows it
  (`LogParser.LogRoundTrip`); the parser of whole buffers can (`LogBatch.BatchRoundTrip`).
- When the first `Close` of the download queue returns, everybody has been answered
  (`DownloadTheorems.CloseReturnsAnswered`). A second call returns at once, and leaves somebody waiting exactly when a
  worker still fetches for a waiter (`DownloadTheorems.CloseAgainLeaves`, `DownloadTheorems.SecondCloseReturnsEarly`).
- Version comparison is not an order on all versions: for any word w but a, alpha, b, beta, pre, preview and rc, 1.0
  equals 1, 1 is below 1.w, and 1.w is below 1.0 (`Versions.OtherWordsCycle`). Versions of a vocabulary of lower-case
  words are totally preordered exactly when it has none but those seven (`Versions.OrderedVocabularies`).

## Model

| member | source | states |
|---|---|---|
| CommitGraph.MergeBaseLowest | internal/gitrepo/history.go:38-46 | the merge base of two heads is a common ancestor and every common ancestor lies at or below it; there is one whenever any common ancestor exists |
| CommitGraph.CommitsAboveExact | internal/history/indexer.go:98-105 | the commits of `base..old` are exactly the old head's ancestors that are not ancestors of the base |
| CommitGraph.MonoReach | internal/gitrepo/history.go:136-153 | with times that never increase towards the root, a `--since` walk reaches exactly the ancestors that are new enough |
| CommitGraph.ReachSplit | internal/gitrepo/history.go:136-153 | without that assumption, a walk reaches a commit exactly when it reaches any commit in between and goes on from there |
| HistoryTables.ReapplyChangesNothing | internal/store/history.go:177-225 | writing a batch again, because its commit was not observed, leaves the tables as they are |
| HistoryStore.Store.constructor | internal/store/history.go:160-167 | a new store holds no events, rows, cursors or state |
| HistoryStore.Store.ApplyHistoryBatch | internal/store/history.go:177-225 | row by row, conflicting inserts ignored and the cursor cleared before it is replaced, the transaction has the effect of the abstract batch on all tables |
| HistoryStore.Store.FinalizeHistory | internal/store/history.go:227-281 | the transaction forgets every trace of removed commits, records coverage and the indexed range, and closes the finished scans, all at once |
| IndexerWalk.ParseExact | internal/history/indexer.go:255-319 | a commit's changes contribute exactly the updates they yield, in a fallback only those still missing, and exactly their diagnostics; what is found leaves the missing set |
| IndexerWalk.ProcessCases | internal/history/indexer.go:220-330 | visiting a commit either changes nothing that a flush would write, or adds all of that commit at once; the tables are those of before or those of after the pending flush, never part of a commit |
| IndexerWalk.WalkKeeps | internal/history/indexer.go:331-408 | a walk adds only what listed commits yield, touches no other scan's progress, and unless cut off meets every listed commit |
| IndexerCursor.TracksCertify | internal/history/indexer.go:322-324 | a cursor whose walk has accounted for everything above the current commit certifies its progress rows |
| IndexerCursor.WalkFollows | internal/history/indexer.go:331-408 | wherever a walk is cut off, the cursor in the tables and the one a pending flush would write both certify their rows |
| IndexerScan.ResumeTracks | internal/history/indexer.go:467-488 | below a certified frontier, what the walk from its parent lists is what the head lists, so the certificate can be continued |
| IndexerScan.ExtendedCertifies | internal/history/indexer.go:439-466 | once the new prefix has reached the old head, the cursor with the new head certifies old and new rows together |
| IndexerScan.ReachedIsReach | internal/history/indexer.go:448-457 | the test on the last walked commit's parent implies that Git's bounded walk really got from the new head to the old one |
| IndexerScan.ScanRangeOk | internal/history/indexer.go:190-499 | a range, resumed, extended or restarted and cut off anywhere, adds only listed work, keeps its cursor certified, and if complete has seen, stored or excused every listed commit |
| IndexerCall.FinalizeSound | internal/store/history.go:227-281 | reconciling keeps every surviving cursor a certificate and every claim of coverage in time true |
| IndexerCall.PrimaryAchieved | internal/history/indexer.go:190-499 | after the first and backward ranges every commit of HEAD no older than the effective bound, and every one above the recorded head, is stored |
| IndexerTheorems.RemovedAreGone | internal/history/indexer.go:93-106 | the commits planned for removal are exactly those of the recorded head that HEAD has lost |
| IndexerTheorems.IndexKeepsSound | internal/history/indexer.go:75-544 | wherever one call is cut off, the tables it leaves are sound: certified cursors, truthful rows and no over-claimed state |
| IndexerTheorems.ReachableSound | internal/history/indexer.go:75-544 | so are the tables after any sequence of calls with any heads, requests and interruptions |
| IndexerTheorems.StateNeverOverclaims | internal/history/indexer.go:500-543 | in every reachable store, each commit of the recorded head no older than the recorded bound has all its updates and diagnostics stored |
| IndexerTheorems.CursorCertificate | internal/history/indexer.go:409-499 | in every reachable store, the rows of an initial or forward scan with a cursor are exactly the in-range commits from the cursor's head down to its frontier |
| IndexerTheorems.BackwardCursorCertificate | internal/history/indexer.go:409-499 | for a backward scan the rows lie in that stretch, and every listed commit without a row is stored or is not below the recorded head |
| IndexerTheorems.CompletedReconciles | internal/history/indexer.go:524-543 | a completed run leaves only events of HEAD if and only if each event stored before it was on HEAD, on the recorded head, or under a progress row of the run's scans |
| IndexerBackward.ScanVouches | internal/history/indexer.go:409-499 | a backward scan, restarted, resumed or extended and cut off anywhere, leaves no cursor, or one whose rows are those it had and those of newly covered commits below the recorded head |
| IndexerBackward.CallVouches | internal/history/indexer.go:110-113 | so does a whole call, through publishing, fallback and reconciliation, for every backward scan key |
| IndexerBackward.FreshBackwardCursor | internal/history/indexer.go:226-228 | a call that finds no rows of its backward scan leaves an exact cursor if and only if no listed commit down to the frontier is on HEAD and not below the recorded head; always, if HEAD is where it was recorded |
| IndexerBackward.BackwardRows | internal/history/indexer.go:409-499 | over every run, a backward cursor has rows for exactly the commits of its stretch that were below the head recorded when the cursor came to cover them |
| IndexerBackward.BackwardCursorExact | internal/history/indexer.go:409-499 | over every run, a backward cursor is exact if and only if all commits of its stretch were |
| IndexerTheorems.ExhaustedIsSound | internal/history/indexer.go:533-540 | a key newly recorded as exhausted is yielded by no commit of HEAD if and only if no commit checkpointed by an earlier, interrupted fallback yields it |
| IndexerCoverage.CallKeepsUnhidden | internal/history/indexer.go:229-318 | a call in which a key is missing, cut off anywhere, never leaves a fallback checkpoint on a commit that yields the key without having stored an event for it |
| IndexerCoverage.ShrinkingSearchIsSound | internal/history/indexer.go:114-157 | a fallback begun without checkpoints and interrupted and resumed any number of times, the missing set only shrinking between calls, records as exhausted only keys that no commit of HEAD yields |
| IndexerSettled.CallTurnover | internal/history/indexer.go:75-543 | wherever a call is cut off, each event and diagnostic it loses was of a commit that HEAD no longer has, and that was on the recorded head or in a row of the call's scans; each one it adds is yielded by a commit of HEAD |
| IndexerSettled.HeadEventsStay | internal/history/indexer.go:93-106 | wherever a call is cut off, events of commits that HEAD still has stay |
| IndexerSettled.CompletedLoses | internal/history/indexer.go:524-543 | after a completed call that had a recorded head, an event is gone if and only if HEAD lacks its commit and the recorded head or a row of the call's own scans names it |
| IndexerSettled.CompletedForgets | internal/store/history.go:227-254 | so for diagnostics and for the rows of all other scans |
| IndexerSettled.OnlyYielded | internal/history/indexer.go:259-319 | in every reachable store, each event and each diagnostic is one that its commit yields |
| IndexerSettled.CompletedRecords | internal/history/indexer.go:84-87 | a completed call records HEAD with the earlier of the recorded and the requested bound, 0 meaning none asked or all of history, and leaves no row and no cursor of its own scans |
| IndexerSettled.CompletedStores | internal/history/indexer.go:88-113 | a completed call has stored everything yielded by each commit of HEAD that is new enough for the request, that the recorded head did not have, or that the recorded range claimed |
| IndexerSettled.UnknownIsSearched | internal/history/indexer.go:114-157 | a wanted key without event and without coverage has after a completed call an event or is recorded as searched for in vain, never both; an event if a commit of HEAD without a row of the search yields it, and only if a commit of HEAD yields it |
| IndexerSettled.CoverageStays | internal/store/history.go:251-254 | what was recorded as searched for in vain stays recorded by a completed call if and only if the call removes nothing |
| IndexerSettled.CoverageIsWanted | internal/history/indexer.go:133-150 | a completed call records only keys that are wanted and had neither event nor coverage |
| IndexerSettled.WantedIsSettled | internal/history/indexer.go:114-157 | after a completed call each wanted key has an event, or is recorded as searched for in vain, or lost its last event to this very call, or lost its record to the call's removals |
| IndexerSettled.CoverageNeedsState | internal/history/indexer.go:533-540 | over every run, nothing is recorded as searched for before a head is |
| IndexerWork.YieldMeans | internal/history/indexer.go:546-561 | a commit yields the updates and diagnostics of its changes that touch a Ruby file, and no others |
| IndexerWork.WalkBatches | internal/history/indexer.go:322-330 | every batch that a walk writes before its end is as large as the limit says: the first of a call, then ten commits each |
| IndexerWork.CallBatches | internal/history/indexer.go:160-189 | the first batch of a call is one commit, and no later one is larger than ten |
| IndexerWork.ScanAfresh | internal/history/indexer.go:226-236 | a scan reads the definitions of no commit for which it has a row or which the call has seen |
| IndexerWork.CallReadsOnce | internal/history/indexer.go:226-236 | a call reads no commit's definitions twice |
| IndexerWork.EnoughCompletes | internal/history/indexer.go:75-543 | a call that is not cut off within an explicit number of reads and writes, linear in the length of history, completes |
| IndexerWork.RecentIsRecorded | internal/history/indexer.go:500-522 | a call cut off in its search through all of history has recorded its recent ranges, if it could afford them and one write and its scans had rows only of commits that they meet again |
| IndexerResume.CallKeepsOutcome | internal/history/indexer.go:171-499 | cutting a call off does not change what the same call will lead to, and a completed call has led there |
| IndexerResume.ResumeEqualsOneShot | internal/history/indexer.go:171-544 | with HEAD and request fixed and nothing installed, any number of interrupted calls followed by a completed one leaves the same tables, all of them, as one uninterrupted call |
| IndexerExamples.AbandonedForwardScanIsNotReconciled | internal/history/indexer.go:93-109 | two runs after which a completed third keeps an event of a commit that HEAD no longer has |
| IndexerExamples.BackwardCursorHasGap | internal/history/indexer.go:110-113 | two runs after which a backward cursor stands below a listed commit without a progress row |
| IndexerExamples.CheckpointHidesKey | internal/history/indexer.go:229-237 | two runs after which a completed third records as exhausted a key that a commit of HEAD yields |
| Indexer.Call.constructor | internal/history/indexer.go:114-170 | a call starts with nothing seen or pending, and misses exactly the wanted keys of which no event is stored and which are not covered, each key for itself |
| Indexer.Call.ApplyBatchOnce | internal/store/history.go:169-171 | one transaction: done, not done, or done unobserved |
| Indexer.Call.FinalizeOnce | internal/store/history.go:173-175 | the same for finalizing |
| Indexer.Call.FlushBatch | internal/history/indexer.go:171-189 | writes all pending work under the scan key with the cursor, once; nothing pending, nothing written; only a seen success empties the buffers and raises the batch size |
| Indexer.Call.ReadChange | internal/history/indexer.go:259-319 | one change: its diagnostics always, its event only if wanted, and which missing key it found |
| Indexer.Call.ReadDefinitions | internal/history/indexer.go:237-319 | all changes of a commit or, when a read fails half way, none: events, diagnostics and the missing set are rolled back |
| Indexer.Call.TakeCommit | internal/history/indexer.go:236-329 | records a commit, moves the cursor's frontier to it, and flushes when the batch is full |
| Indexer.Call.ProcessCommit | internal/history/indexer.go:220-330 | the skips in the program's order, then the commit itself |
| Indexer.Call.Consume | internal/history/indexer.go:340-382 | processes the queued commits in order, whether or not their blobs are fetched ahead |
| Indexer.Call.WalkCommits | internal/history/indexer.go:331-408 | with lookahead or without, the same commits in the same order and the same batches, and the late flush of a cancelled walk |
| Indexer.Call.RestartScan | internal/history/indexer.go:489-499 | walks the whole range, with a cursor only if there were no checkpoints |
| Indexer.Call.ResumeScan | internal/history/indexer.go:467-488 | walks only below the frontier, counting the checkpoints as met |
| Indexer.Call.ExtendScan | internal/history/indexer.go:439-466 | walks the new prefix without a cursor, saves the moved cursor only if the prefix reached the old head, else starts over |
| Indexer.Call.ScanFromCursor | internal/history/indexer.go:409-438 | validates the cursor, clears it before anything of a changed prefix is written, and resumes, extends or restarts |
| Indexer.Call.ScanOneRange | internal/history/indexer.go:190-218 | loads the checkpoints, skips a fallback with nothing to do, then scans |
| Indexer.Call.ScanPrimary | internal/history/indexer.go:190-499 | the first range, then the backward one, stopping where cut off |
| Indexer.Call.PublishAndFallBack | internal/history/indexer.go:500-522 | publishes the recent ranges first, unless checkpoints still need reconciling, then scans the fallback |
| Indexer.Call.Run | internal/history/indexer.go:75-543 | a whole call computes `IndexerSpec.Index`, about which all the theorems are |
| Indexer.IndexHistory | internal/history/indexer.go:47-544 | a call on a store has the effect of `IndexerSpec.After`, succeeds exactly when `Completes`, and without a merge base writes nothing; after success HEAD is recorded, and each wanted key that had neither event nor coverage is covered exactly if it still has no event |
| CoordinatorTheorems.FireInvariant | internal/syncer/coordinator.go:201-1036 | every critical section keeps the queues, the counters, the lookups and the setups in order |
| CoordinatorTheorems.ReachedInvariant | internal/syncer/coordinator.go:201-1036 | hence every interleaving does |
| CoordinatorTheorems.ReachedStep | internal/syncer/coordinator.go:201-1036 | a critical section of a reached state leads to a reached state, so the theorems hold of the object after each method |
| CoordinatorTheorems.OneReservedPerSource | internal/syncer/coordinator.go:596-660 | two jobs of one source that have reserved it or begun are the same job, and it is at the head of the source's queue |
| CoordinatorTheorems.AtMostTwoRun | internal/syncer/coordinator.go:613-657 | at most two jobs are inside `run` |
| CoordinatorTheorems.NoRefreshBehindFallback | internal/syncer/coordinator.go:554-643 | while the root context lives, no refresh stands behind a fallback that has not reserved the source, also after a fallback has stepped back |
| CoordinatorTheorems.OneWaitingOfEach | internal/syncer/coordinator.go:561-570 | each source has at most one waiting refresh and one waiting fallback |
| CoordinatorTheorems.CountersExact | internal/syncer/coordinator.go:563-702 | `active` is the number of source jobs, installed lookups and setups; `initialActive` is the number of open tickets |
| CoordinatorTheorems.WaitReturnsWhenDone | internal/syncer/coordinator.go:1006-1019 | neither counter is ever negative, and each is zero exactly when there is nothing of its kind left |
| CoordinatorTheorems.FinishingLookupIsHead | internal/syncer/coordinator.go:500-530 | the queue element that a finishing lookup removes unseen is always that lookup |
| CoordinatorTheorems.LookupsFinishInOrder | internal/syncer/coordinator.go:445-530 | lookups finish in the order in which they were admitted |
| CoordinatorTheorems.SnapshotIsLatestLookup | internal/syncer/coordinator.go:436-480 | a snapshot is available if and only if the most recently admitted lookup has succeeded and settled, and then it is what that lookup found |
| CoordinatorTheorems.FallbackBeginsSettled | internal/syncer/coordinator.go:626-654 | a fallback begins only when every admitted lookup has finished, with the latest successful snapshot, which is not empty |
| CoordinatorDemand.QueuePendingShape | internal/syncer/coordinator.go:955-981 | pending operations hold one refresh per name at most, and every range request in order |
| CoordinatorDemand.QueuePendingCovers | internal/syncer/coordinator.go:955-981 | the new refresh is covered by a pending one at least as broad and as initial, and whatever was covered stays covered |
| CoordinatorDemand.CoalesceLosesNothing | internal/syncer/coordinator.go:955-981 | so for any list of requests folded in: nothing lost, nothing kept twice |
| CoordinatorDemand.WaitingRequestsAreCovered | internal/syncer/coordinator.go:892-999 | over every run, each request made before the sources are known is pending or covered by a pending one |
| CoordinatorDemand.ScheduleServes | internal/syncer/coordinator.go:556-594 | after scheduling, work of the kind waits in the source's queue, with an open ticket if someone waits for it |
| CoordinatorDemand.ScheduleKeepsServing | internal/syncer/coordinator.go:556-594 | scheduling takes nothing away from what already waits |
| CoordinatorDemand.LoadingServesPending | internal/syncer/coordinator.go:326-342 | when discovery succeeds, each pending operation is scheduled for each source it names |
| CoordinatorDemand.EveryRequestIsServed | internal/syncer/coordinator.go:326-342 | over every run: each request still waiting when the sources become known gets its job, with its ticket, on each source it names |
| CoordinatorDemand.EndingOwesFallback | internal/syncer/coordinator.go:803-812 | a run that ends by asking for a fallback, a yielded one included, leaves one waiting or parked behind a lookup, unless closed or nothing is installed |
| CoordinatorDemand.ParkedStaysOwed | internal/syncer/coordinator.go:876-890 | whatever happens next, a parked source stays parked or gets its fallback, unless the lookups end with nothing installed |
| CoordinatorDemand.LastLookupReleases | internal/syncer/coordinator.go:508-525 | the last lookup schedules a fallback for every parked source, and for every remembered one if the installed list changed |
| CoordinatorMeaning.RefreshServes | internal/syncer/coordinator.go:921-942 | in every reached open state whose sources are known, a refresh leaves refresh work waiting for each source, with an open ticket if it is to be waited for |
| CoordinatorMeaning.RetryServes | internal/syncer/coordinator.go:892-913 | so does a retry for the source it names, or for all, always with a ticket |
| CoordinatorMeaning.RangeServes | internal/syncer/coordinator.go:983-1000 | so does a request for a range, with range work |
| CoordinatorMeaning.RefreshKept | internal/syncer/coordinator.go:929-939 | before the sources are known a refresh is remembered, with everything remembered before it, starts discovery if nothing has, and opens the running discovery's ticket if it is to be waited for |
| CoordinatorMeaning.RetryKept | internal/syncer/coordinator.go:902-911 | so is a retry, under the name it gives |
| CoordinatorMeaning.RangeKept | internal/syncer/coordinator.go:993-998 | a request for a range is kept as it is, and opens the running discovery's ticket |
| CoordinatorMeaning.RequestsRefused | internal/syncer/coordinator.go:898-901 | once closed, or before the root is open, requests change nothing |
| CoordinatorMeaning.DiscoveryServes | internal/syncer/coordinator.go:326-342 | when discovery succeeds, each source it found has a refresh waiting, with a ticket if the discovery has one, and the work asked for before |
| CoordinatorMeaning.DiscoveryFails | internal/syncer/coordinator.go:310-325 | when it fails it may be started again, and jobs and pending requests stay |
| CoordinatorMeaning.ScheduleMeans | internal/syncer/coordinator.go:556-594 | scheduling joins waiting work of the kind, never for a range, or queues one job: a refresh before the first fallback that has not taken the source, other work last; all other jobs keep their order |
| CoordinatorMeaning.WakeMeans | internal/syncer/coordinator.go:601-612 | a queued job goes on if and only if it is cancelled, the coordinator closes, or it is first of its source and, if a fallback, no lookup is queued |
| CoordinatorMeaning.AcquireMeans | internal/syncer/coordinator.go:613-618 | a waiting job gets a slot if and only if fewer than two are held |
| CoordinatorMeaning.ProceedMeans | internal/syncer/coordinator.go:619-657 | with a slot a job begins if and only if it is not cancelled and, if a fallback, no lookup is queued and something is installed, which it takes along; only a fallback that finds a lookup queued stays in the queue |
| CoordinatorMeaning.BatchMeans | internal/syncer/coordinator.go:735-742 | after a batch a running fallback is cancelled as yielded if and only if it was not cancelled and a refresh of its source has yet to begin; any other job's ticket is complete; nothing else changes |
| CoordinatorMeaning.FinishMeans | internal/syncer/coordinator.go:803-812 | a recent scan that committed, and a fallback cancelled to yield, leave a fallback parked while lookups are queued, else waiting if anything is installed; any other run leaves nothing behind |
| CoordinatorMeaning.DoneMeans | internal/syncer/coordinator.go:670-691 | a finished job leaves its line as it stands without it, gives up an open ticket, and is counted no more |
| CoordinatorMeaning.RefreshInstalledMeans | internal/syncer/coordinator.go:445-461 | a refresh of the installed packages is a lookup behind all others, and makes the snapshot unavailable until it is done |
| CoordinatorMeaning.StartupLookupMeans | internal/syncer/coordinator.go:370-381 | startup shares the last lookup if and only if it may be shared and was not cancelled, and else queues its own |
| CoordinatorMeaning.StoreMeans | internal/syncer/coordinator.go:532-552 | what a lookup stores is what is installed from then on |
| CoordinatorMeaning.SettleMeans | internal/syncer/coordinator.go:473-480 | once a lookup settles there is a snapshot if and only if it stored one and no other lookup is queued |
| CoordinatorMeaning.JoinedMeans | internal/syncer/coordinator.go:383-402 | startup looks for itself if the lookup it shared has failed and nothing is closing, and else is over |
| CoordinatorMeaning.LookupFinishMeans | internal/syncer/coordinator.go:500-529 | the last lookup gives a fallback to the parked sources, and to all that ever asked if a lookup since the last time succeeded, and touches no other; an earlier one leaves them parked |
| CoordinatorMeaning.StopMeans | internal/syncer/coordinator.go:1022-1036 | stopping closes for good, drops what is pending, and cancels every job and every queued lookup |
| CoordinatorProgress.NeverStuck | internal/syncer/coordinator.go:463-702 | while anything is counted in `active`, some goroutine can take its next step: no deadlock among queues, slots, lookups and setups |
| CoordinatorProgress.ClosedStepsDrain | internal/syncer/coordinator.go:1021-1041 | once closed, every step but a batch inside `run` brings the end nearer |
| CoordinatorProgress.BatchesDelayNothing | internal/syncer/coordinator.go:735-742 | and a batch puts it off by nothing |
| CoordinatorTickets.TicketCompletesOnce | internal/syncer/coordinator.go:187-199 | a job's ticket opens once, completes once, and never reopens |
| CoordinatorTickets.SetupTicketCompletesOnce | internal/syncer/coordinator.go:693-702 | so does a setup's |
| CoordinatorTickets.TicketsCounted | internal/syncer/coordinator.go:187-199 | in every step `initialActive` rises by one for each ticket that opens and falls by one for each that completes, in place or as its job or setup leaves |
| CoordinatorQueues.AdmitOk | internal/syncer/coordinator.go:570-592 | a refresh put before the first idle fallback, other work at the end, keep order, priority and coalescing |
| CoordinatorQueues.UnreserveOk | internal/syncer/coordinator.go:626-643 | giving the reservation back and moving the first refresh to the front keeps them too |
| CoordinatorQueues.DepartOk | internal/syncer/coordinator.go:670-691 | so does taking a finished job out, wherever it stands |
| CoordinatorQueues.CancelAllOk | internal/syncer/coordinator.go:1022-1036 | so does cancelling every job |
| CoordinatorLookups.HeadStepOk | internal/syncer/coordinator.go:463-500 | a lookup changing stage keeps the snapshot equal to the last success, and valid only for the last admitted |
| CoordinatorLookups.PopOk | internal/syncer/coordinator.go:500-530 | a finished lookup leaving the queue keeps it too |
| Coordinators.Coordinator.constructor | internal/syncer/coordinator.go:223-231 | starts in the machine's initial state, which a run reaches |
| Coordinators.Coordinator.ScheduleLocked | internal/syncer/coordinator.go:556-594 | joins waiting work of the same kind, else inserts by priority; the whole new state |
| Coordinators.Coordinator.ScheduleOperationLocked | internal/syncer/coordinator.go:662-668 | schedules an operation for each source it names |
| Coordinators.Coordinator.ScheduleHistoricalFallbackLocked | internal/syncer/coordinator.go:876-890 | parks behind lookups, schedules if anything is installed, else nothing |
| Coordinators.Coordinator.ScheduleHistoricalFallback | internal/syncer/coordinator.go:866-874 | remembers the source, then the same |
| Coordinators.Coordinator.QueuePendingLocked | internal/syncer/coordinator.go:955-981 | the search and the filtering compute `QueuePending`, whose properties are `QueuePendingShape` and `QueuePendingCovers` |
| Coordinators.Coordinator.IncludeSetupInInitialLocked | internal/syncer/coordinator.go:948-953 | opens a ticket for a running setup that has none |
| Coordinators.Coordinator.StartLocked | internal/syncer/coordinator.go:272-283 | one more live setup, counted, with a ticket if initial |
| Coordinators.Coordinator.Start | internal/syncer/coordinator.go:258-270 | starts at most once |
| Coordinators.Coordinator.Refresh | internal/syncer/coordinator.go:921-942 | with the sources known, refresh work waits for each of them; else the request is remembered and discovery started if it has not been |
| Coordinators.Coordinator.Retry | internal/syncer/coordinator.go:892-913 | the same for the source it names, always waited for |
| Coordinators.Coordinator.EnsureRange | internal/syncer/coordinator.go:983-1000 | the same with range work, always waited for; it does not start discovery |
| Coordinators.Coordinator.EnqueueInstalledLocked | internal/syncer/coordinator.go:445-461 | admits a lookup behind the last one and makes the snapshot unavailable |
| Coordinators.Coordinator.StartInstalledLocked | internal/syncer/coordinator.go:370-381 | shares the last lookup if startup owns it and it may still succeed, else admits one |
| Coordinators.Coordinator.InstalledSnapshot | internal/syncer/coordinator.go:436-443 | a snapshot exactly when open and valid, and it is the installed list |
| Coordinators.Coordinator.SettleInstalled | internal/syncer/coordinator.go:473-480 | a result makes the snapshot valid only if no lookup is behind it |
| Coordinators.Coordinator.FinishInstalled | internal/syncer/coordinator.go:500-529 | the element removed is the finishing lookup itself, and if it was the last, the waiting sources are handed back in any order |
| Coordinators.Coordinator.LoadSources | internal/syncer/coordinator.go:326-342 | publishes the sources, refreshes each and schedules all pending operations |
| Coordinators.Coordinator.Awake | internal/syncer/coordinator.go:601-612 | a job reserves its source exactly when its wait condition is over |
| Coordinators.Coordinator.StepBack | internal/syncer/coordinator.go:626-640 | gives the reservation back and moves the first refresh forward |
| Coordinators.Coordinator.Proceed | internal/syncer/coordinator.go:619-657 | with a slot: gives up, steps back, ends for want of packages, or begins with the snapshot |
| Coordinators.Coordinator.CompleteTicket | internal/syncer/coordinator.go:192-199 | counts an open ticket down and closes it; a closed or absent one changes nothing |
| Coordinators.Coordinator.YieldFallbackAtCheckpoint | internal/syncer/coordinator.go:848-857 | cancels a fallback, as yielded, exactly when a refresh stands behind it |
| Coordinators.Coordinator.DoneSourceJob | internal/syncer/coordinator.go:670-691 | completes the ticket, takes the job out of its queue, drops an empty queue, and counts down |
| Coordinators.Coordinator.Stop | internal/syncer/coordinator.go:1022-1036 | closes, drops pending operations and cancels all jobs and lookups; again, nothing |
| DownloadTheorems.FireSound | internal/download/queue.go:137-308 | every critical section keeps the key table, the waiters and the bound in order |
| DownloadTheorems.ReachedSound | internal/download/queue.go:137-308 | so does every interleaving |
| DownloadTheorems.AnsweredOrAttached | internal/download/queue.go:137-308 | an accepted waiter has exactly one result if and only if it is attached to no job; attached, it is attached to exactly one, which is the entry for its key |
| DownloadTheorems.ResultStands | internal/download/queue.go:235-243 | a result once sent is never replaced or followed by another |
| DownloadTheorems.SharedResult | internal/download/queue.go:296-306 | when a fetch ends every waiter attached gets its result, and nobody else is sent anything |
| DownloadTheorems.CloseAnswersPending | internal/download/queue.go:259-266 | closing answers everyone attached to a pending job |
| DownloadTheorems.CloseReturnsAnswered | internal/download/queue.go:251-271 | over every run, when the first close returns, and ever after, every accepted waiter has exactly one result and no job is left |
| DownloadTheorems.CloseAgainLeaves | internal/download/queue.go:251-256 | when a later close returns, somebody is unanswered if and only if some worker is still fetching a job with waiters |
| DownloadTheorems.SecondCloseReturnsEarly | internal/download/queue.go:251-256 | a run in which it leaves a waiter without a result |
| DownloadTheorems.ClosingGoesOn | internal/download/queue.go:270-307 | until the first close returns, some worker can finish its fetch or exit, or the close can return |
| DownloadTheorems.ClosingDrains | internal/download/queue.go:270-307 | in a closed queue each fetch that ends and each worker that exits brings that return nearer, and nothing puts it off |
| DownloadTheorems.OrderIsTotal | internal/download/queue.go:66-71 | the next job and the job that would be displaced are each unique |
| DownloadTheorems.NeverBlocked | internal/download/queue.go:137-288 | an open queue with pending jobs lets any idle worker take one, and every new request gets an answer |
| DownloadTheorems.DisplacesNewestOfLowest | internal/download/queue.go:170-187 | a request removes a job only from a full queue, only one of strictly lower priority, the newest of the lowest, whose waiters are all told; every other job stays as it is |
| DownloadMeaning.EnqueueMeans | internal/download/queue.go:137-198 | in every reached state: a request is refused if and only if the queue is closed, full if and only if its key is new, no place is left and no pending job is lower, and else accepted; accepted, it has no result and waits for the job of its key, which will not be taken later than it asked; otherwise nothing changes |
| DownloadMeaning.JoinMeans | internal/download/queue.go:161-169 | a request for a key that is there joins its job behind those who wait, and raises a pending job's priority, never lowers it |
| DownloadMeaning.NewJobMeans | internal/download/queue.go:170-198 | a new key gets a job of its own, younger than all others; a job makes room only in a full queue, and its waiters are told |
| DownloadMeaning.CancelMeans | internal/download/queue.go:208-233 | a waiter who cancels in time gets that result; its job stays if it is active or others wait, and its key only if others wait |
| DownloadMeaning.CancelTooLate | internal/download/queue.go:208-217 | who cancels too late keeps the result, and nothing happens |
| DownloadMeaning.TakeMeans | internal/download/queue.go:276-288 | an idle worker takes the oldest of the jobs of highest priority |
| DownloadMeaning.FinishMeans | internal/download/queue.go:296-306 | a job whose fetch ends is gone, and its key is free unless another job has taken it over |
| DownloadMeaning.CloseMeans | internal/download/queue.go:259-266 | closing takes out exactly the pending jobs, tells their waiters, and leaves the active jobs and all results sent before |
| DownloadHeap.TopIsFirst | internal/download/queue.go:63-84 | in a heap no item comes before the top |
| DownloadHeap.UpStep | internal/download/queue.go:193 | one step of sifting up leaves only the item's new place in doubt |
| DownloadHeap.DownStep | internal/download/queue.go:284 | one step of sifting down leaves only the children of the new place in doubt |
| DownloadHeap.SwapOut | internal/download/queue.go:181 | putting the last item in another's place leaves only that place in doubt |
| DownloadHeap.Heap.Swap | internal/download/queue.go:72 | exchanges two items and their back-indices |
| DownloadHeap.Heap.Up | internal/download/queue.go:193 | restores the heap above a place, keeping the items and their indices |
| DownloadHeap.Heap.Down | internal/download/queue.go:284 | restores the heap below a place, and says whether anything moved |
| DownloadHeap.Heap.Push | internal/download/queue.go:73-77 | a heap with one more item, which knows its place |
| DownloadHeap.Heap.TakeLast | internal/download/queue.go:78-84 | takes the last item, whose index becomes -1 |
| DownloadHeap.Heap.Remove | internal/download/queue.go:181 | takes out the item at a place and leaves a heap of the others |
| DownloadHeap.Heap.Pop | internal/download/queue.go:284 | takes out the top and leaves a heap of the others |
| DownloadHeap.Heap.Fix | internal/download/queue.go:165 | restores the heap after one item's priority has changed |
| DownloadQueue.PendingCount | internal/download/queue.go:170 | the heap is exactly the machine's pending jobs, as many and none twice |
| DownloadQueue.TopIsNext | internal/download/queue.go:284-286 | the top of the heap is the job of highest priority, the oldest among equals |
| DownloadQueue.Queue.constructor | internal/download/queue.go:109-135 | an empty queue with the given capacity, or 128, and the given number of idle workers, or 4 |
| DownloadQueue.Queue.Enqueue | internal/download/queue.go:137-198 | an accepted waiter has no result and is among the waiters of the one job for its key, which is active or of at least the priority asked; refused exactly when closed, full exactly when no place is left and no pending job is lower; the object then stays as it is |
| DownloadQueue.Queue.FindWorst | internal/download/queue.go:170-177 | finds the newest of the lowest priority |
| DownloadQueue.Queue.CancelWaiter | internal/download/queue.go:208-233 | answers the waiter and, if it was the last, drops the pending job or gives up the active job's key |
| DownloadQueue.Queue.FinishWaiterLocked | internal/download/queue.go:235-243 | sends at most one result |
| DownloadQueue.Queue.Take | internal/download/queue.go:276-288 | an idle worker takes the top of the heap, the machine's next job |
| DownloadQueue.Queue.Finish | internal/download/queue.go:296-306 | answers all attached waiters and frees the key only if it is still this job's |
| DownloadQueue.Queue.Exit | internal/download/queue.go:280-283 | an idle worker of a closed queue exits, and is waited for no longer |
| DownloadQueue.Queue.Close | internal/download/queue.go:251-269 | the first close answers every pending job, best first, and empties the heap; a later one changes nothing and returns |
| DownloadQueue.Queue.AwaitWorkers | internal/download/queue.go:270-271 | with no worker left the first close returns, and every waiter has exactly one result |
| FeedSpec.LessTotal | internal/domain/feed.go:131-136 | events with different identities are ordered |
| FeedSpec.LessTransitive | internal/domain/feed.go:131-136 | the order is transitive |
| FeedSpec.ListingUnique | internal/domain/feed.go:91-99 | a set of events has one sorted listing |
| FeedSpec.FeedUnique | internal/domain/feed.go:48-114 | two feeds of the same set of events are the same rows: input order and map order do not matter |
| FeedSpec.FeedMeaning | internal/domain/feed.go:48-114 | an event is in some row exactly when it matches and is inside the horizon, or is the newest old one of an installed package and kind with none inside; rows are newest first, one per package when rolled up, one per event otherwise |
| FeedSpec.RollUpPartitions | internal/domain/feed.go:101-113 | rolling up puts every event into exactly one row, its package's, in order |
| FeedSpec.RollUpNewest | internal/domain/feed.go:101-113 | each row begins with its newest event and rows are ordered by it |
| FeedShows.LessMeans | internal/domain/feed.go:131-136 | the order is by time, the later first, and then by identity, the one that comes first as text |
| FeedShows.CandidateMeans | internal/domain/feed.go:116-129 | an event passes if its kind and type are wanted, its group is in scope and the text stands in its name or package; it is too old if a horizon is set, its package is not exempt, and its time lies before it |
| FeedShows.ShownMeans | internal/domain/feed.go:49-93 | an event is shown if and only if it passes and is recent, or its package is installed, nothing of its package and kind that passes is recent, and it is the newest of those |
| FeedShows.OldIsNewest | internal/domain/feed.go:77-93 | a shown event before the horizon is at least as new as everything of its package and kind that passes |
| FeedShows.RowsByTime | internal/domain/feed.go:94-114 | within each row, and from row to row by the first event, times never increase, and equal times have increasing identities |
| Text.PrecedesMeans | internal/domain/feed.go:131-136 | a string comes before another if at the first place where they differ it has the smaller byte, or ends |
| Text.ContainsMeans | internal/domain/feed.go:116-125 | containing means standing somewhere |
| Feed.Candidates | internal/domain/feed.go:55-61 | keeps exactly the matching events in scope |
| Feed.MarkInside | internal/domain/feed.go:63-68 | marks exactly the packages and kinds with a candidate inside the horizon |
| Feed.Select | internal/domain/feed.go:70-86 | keeps exactly the candidates inside, and for each marked-free package and kind of an installed package the newest other |
| Feed.AppendFallbacks | internal/domain/feed.go:87-89 | adds exactly the map's events, in whatever order |
| Feed.Sort | internal/domain/feed.go:91-99 | a sorted permutation |
| Feed.GroupRows | internal/domain/feed.go:101-113 | grouping by index gives one row for each package, or one for each event |
| Feed.Build | internal/domain/feed.go:49-114 | with distinct identities the rows are the feed of the set of events, which is unique |
| FeedQuery.KeptIsCandidate | internal/store/feed.go:82-91 | the SQL scope, kind and type predicates, with NULLs as they are, hold exactly for the rows the feed rules accept |
| FeedQuery.PushDownExact | internal/store/feed.go:95-229 | choosing rows in SQL changes nothing about the feed if and only if no row is exempt by the caller's own list alone |
| FeedQuery.NothingLost | internal/store/feed.go:222-227 | there is no such row when the search sets the exemptions or nobody is exempt |
| FeedQuery.CallerExemptionIsDropped | internal/store/feed.go:100-110 | an old row the feed would show and the query does not |
| FeedQuery.NothingOn | internal/store/feed.go:111-126 | with every kind or type off the empty feed is right, so returning early changes nothing |
| FeedQuery.CatalogExact | internal/store/feed.go:238-286 | catalog rows name distinct packages, none already shown, all in scope and of a wanted type, and no listed hit is left out |
| FeedQuery.Scan | internal/store/feed.go:187-218 | collects exactly the rows the statement keeps and the installed packages among them |
| FeedQuery.AppendCatalog | internal/store/feed.go:230-286 | the feed followed by exactly those catalog rows |
| FeedQuery.AnswerUnique | internal/store/feed.go:94-287 | a query has one answer, whatever the order of rows, maps and sorting |
| FeedShows.QueryShows | internal/store/feed.go:94-262 | with nothing left to SQL, a query shows a row if and only if it is wanted and timely, or is the newest of an installed package and kind of which nothing wanted is timely |
| FeedShows.AnswerShows | internal/store/feed.go:94-287 | the answer holds exactly the events that the query shows |
| FeedShows.CatalogMeans | internal/store/feed.go:262-287 | a package gets a catalog row if and only if version updates are wanted, none of its events is shown, and it is a hit of a wanted type and in scope, by the catalog's word and by the table's |
| FeedQuery.QueryFeed | internal/store/feed.go:94-287 | returns the answer for the rows the statement keeps: their feed, followed by the catalog rows; unless a row is lost it is also the answer when nothing is left to SQL |
| Streams.ByteReader.ReadString | internal/gitrepo/history.go:232-236 | up to the delimiter or the end, whatever the chunks |
| LogParser.TokensOfEmit | internal/gitrepo/history.go:233-244 | the tokens of printed fields are the non-empty ones, and the last is closed |
| LogParser.ParsesRest | internal/gitrepo/history.go:276-331 | with a commit in hand, the rest of a printed log is read back exactly when every subject in it can be told |
| LogParser.LogRoundTrip | internal/gitrepo/history.go:223-331 | any printed list of commits, however padded and even if paths or subjects look like identities, is read back with statuses cut to a letter, if and only if no empty subject is followed by anything |
| LogBatch.BatchRoundTrip | internal/gitrepo/history.go:344-396 | the parser of whole buffers reads every printed list back, empty subjects included |
| LogBatch.ParsersAgree | internal/gitrepo/history.go:223-396 | on printed text the two parsers agree under the same condition and no other |
| LogGrammar.StreamAccepts | internal/gitrepo/history.go:223-331 | the stream parser accepts a stream with given commits if and only if its tokens are theirs: identity, valid time, subject and changes, one commit after the other |
| LogGrammar.MalformedYields | internal/gitrepo/history.go:223-331 | of a malformed stream the parser yields exactly the commits spelled by the tokens before one of its headers |
| LogGrammar.StreamYieldsSound | internal/gitrepo/history.go:223-331 | whatever the stream holds, a yielded commit has an object identity, a valid time and one-letter statuses |
| LogGrammar.BufferAccepts | internal/gitrepo/history.go:344-396 | the parser of a whole buffer accepts it with given commits if and only if its parts are theirs, with empty parts between them |
| LogGrammar.BatchYieldsSound | internal/gitrepo/history.go:344-396 | and its commits are sound too |
| LogBatch.ScanChanges | internal/gitrepo/history.go:362-392 | the inner loop reads the changes up to the next identity, or fails |
| LogBatch.ParseCommits | internal/gitrepo/history.go:344-396 | computes the batch parse of any buffer, well-formed or not |
| LogWalk.Next | internal/gitrepo/history.go:233-244 | the next non-empty token, and whether the stream ended with it |
| LogWalk.Header | internal/gitrepo/history.go:251-271 | reads a header, or fails where the token parser does |
| LogWalk.Walk | internal/gitrepo/history.go:223-331 | what is yielded, and whether it ends well, depends on the bytes alone, not on how they are chunked |
| Ancestry.ReadsLine | internal/gitrepo/history.go:98-124 | a line longer than the buffer is read in fragments, and sets the parent to its first field only |
| Ancestry.ReadsLines | internal/gitrepo/history.go:98-124 | after any lines the parent is the first field of the last |
| Ancestry.LastNamesMergeBase | internal/gitrepo/history.go:72-97 | the last line of `ancestor..descendant` names their merge base, or nothing |
| Ancestry.LastParent | internal/gitrepo/history.go:98-124 | the reading loop computes the scan, malformed streams included |
| Ancestry.ScanMeans | internal/gitrepo/history.go:98-125 | of any stream, through a buffer of any size above 64, the loop finds the first field of the last line, and fails if and only if some line does not end or begins with what is neither empty nor an object identity |
| Ancestry.IsFirstParentAncestor | internal/gitrepo/history.go:72-125 | answers exactly whether the one is a first-parent ancestor of the other, whenever the commits of the two chains have distinct identities |
| Ancestry.NamesExist | internal/gitrepo/history.go:398-408 | identities of forty digits name the commits of any two chains no longer than there are such identities |
| BlobSpec.EchoIsNotOk | internal/gitrepo/blob.go:65-70 | the echo of an accepted query never begins with the success marker |
| BlobSpec.IdIsNotOk | internal/gitrepo/blob.go:164-176 | nor does the echo of an object identity |
| BlobSpec.HeaderFields | internal/gitrepo/blob.go:187-201 | a header has four fields, the last the decimal size |
| BlobReaders.ReadEcho | internal/gitrepo/blob.go:168-185 | consumes exactly the echo of the query and one of two words, and marks the stream failed at anything else |
| BlobReaders.ReadObject | internal/gitrepo/blob.go:187-216 | on any reply, a body comes from a frame with a header of four fields, as many bytes as it says and a newline, and exactly that frame is consumed; anything else marks the stream failed; a conforming process's answer is returned |
| BlobReaders.ReadBody | internal/gitrepo/blob.go:199-212 | exactly the announced bytes and the newline after them, or a stream marked failed |
| BlobReaders.Ask | internal/gitrepo/blob.go:156-216 | one query consumes one frame and gives its answer; whatever the process replies, a body is that of a well-formed frame |
| BlobReaders.BlobReader.constructor | internal/gitrepo/blob.go:30-40 | a reader that has started nothing |
| BlobReaders.BlobReader.Start | internal/gitrepo/blob.go:42-50 | takes the next process, with nothing unread |
| BlobReaders.BlobReader.ReadBlob | internal/gitrepo/blob.go:131-217 | the answer to the query, or the stream is marked failed |
| BlobReaders.BlobReader.Blob | internal/gitrepo/blob.go:55-110 | a failure costs at most one restart, after which a sound process's answer is returned; a failed or closed reader, and an unacceptable query, give an error and touch no process |
| BlobReaders.BlobReader.Again | internal/gitrepo/blob.go:81-109 | closes the old process whatever was wrong and asks a new one once |
| BlobReaders.BlobReader.Close | internal/gitrepo/blob.go:221-229 | closes once; again, nothing |
| OpenStore.OpenPreservingFailures | cmd/cicerone/main.go:289-374 | it succeeds if and only if the database has opened in its place, and without a failure it does; only what a faultless trial has left of the copy is ever put there; until it opens, every state of the directory holds the original main file at the path or in the backup; on every error each original file is in place or in a backup that the error names, and in place if no rename failed; if no removal fails no trial file is left, and after success no backup |
| OpenStore.Check | cmd/cicerone/main.go:315-333 | a trial on a copy, opened and closed, leaves the original and its sidecars untouched, and succeeds only if both did |
| OpenStore.MakeBackup | cmd/cicerone/main.go:334-346 | a backup of the main file and of each sidecar, all named, or failure with the original untouched |
| OpenStore.Promote | cmd/cicerone/main.go:347-373 | the copy takes the original's place only with the backup made; it is opened once, and the result is that of opening it |
| OpenStore.OpenOrRestore | cmd/cicerone/main.go:356-373 | the promoted copy is opened, and succeeds or gives the original back accordingly |
| OpenStore.Restore | cmd/cicerone/main.go:361-373 | the backup returns, or the error names what is preserved |
| OpenStore.RestoreSidecars | cmd/cicerone/main.go:366-372 | the same for the sidecars, one by one |
| OpenStore.CopySidecars | cmd/cicerone/main.go:318-326 | copies each sidecar that is there |
| OpenStore.ExistingFiles | cmd/cicerone/main.go:382-390 | every named file that exists, and no other |
| OpenStore.RemoveFiles | cmd/cicerone/main.go:376-380 | touches nothing but the named files, and leaves one only where a removal failed |
| OpenStore.Disk.Copy | cmd/cicerone/main.go:392-408 | succeeds with the source's bytes, or may leave anything at the destination only |
| OpenStore.SafeSteps | cmd/cicerone/main.go:300-346 | steps that touch no original keep every state safe |
| OpenStore.ReturnedSome | cmd/cicerone/main.go:366-372 | an error half way through the sidecars names a backup for each one not returned |
| Versions.FindRunEnd | internal/homebrew/installed.go:92-108 | finds the end of a run of digits or of letters |
| Versions.SplitVersion | internal/homebrew/installed.go:92-108 | splits a version into its runs |
| Versions.CompareVersions | internal/homebrew/installed.go:80-90 | computes the comparison of the runs and the remainder |
| Versions.CompareAntisymmetric | internal/homebrew/installed.go:80-157 | for all versions, swapping the two negates the result, and a version equals itself |
| Versions.NumericPartsCompare | internal/homebrew/installed.go:114-122 | trimming zeros, then length, then text is comparison of the natural numbers, of any size |
| Versions.CompareIsArithmetic | internal/homebrew/installed.go:80-157 | for versions of numbers, the tuples are tuples of numbers of any size, and the first component that differs decides |
| Versions.NumbersArePreordered | internal/homebrew/installed.go:80-157 | hence transitive on such versions |
| Versions.CompareIsLexicographic | internal/homebrew/installed.go:80-157 | for versions of numbers and pre-release tags, comparison is lexicographic comparison of the parts padded with zeros, each tag below every number, in all three cases |
| Versions.TagsArePreordered | internal/homebrew/installed.go:80-157 | hence transitive on such versions |
| Versions.OtherWordsCycle | internal/homebrew/installed.go:132-157 | any other word closes a cycle of three versions |
| Versions.OrderedVocabularies | internal/homebrew/installed.go:142-157 | versions over a vocabulary of lower-case words are totally preordered if and only if all its words are tags |
| VersionOrder.SplitMeans | internal/homebrew/installed.go:92-112 | the parts of a version are its runs of digits and of letters, whole, in order, and without a gap, lower-cased |
| VersionOrder.CompareMeans | internal/homebrew/installed.go:80-157 | for any two versions: the first part in which they differ decides, numbers by value, words as text, a number above a word; if one is the other and more, its first further part that is not zero decides, and only a tag makes it the lower |
| Text.DecimalValue | internal/gitrepo/blob.go:187-201 | decimal notation reads back as the number it was printed from |

## Left out

General:

- Process execution, pipes, HTTP, DNS, SQLite itself, Ruby and HTML parsing, the terminal interface, timers,
  notification payloads, error texts and changelog discovery are foreign code or presentation.
- The files of `internal/store` that are single upserts or selects, which hold no logic of their own.

History indexer:

- IndexerTheorems.BackwardCursorCertificate: gives the rows' bounds and what every gap owes; when the rows are exact is the subject of `IndexerBackward.BackwardCursorExact`.
- HistoryStore.Store.ApplyHistoryBatch: without the upserts of rename aliases and packages, which are held fixed.
- HistoryStore.Store.FinalizeHistory: without the deletion of the removed commits' aliases.
- IndexerResume.ResumeEqualsOneShot: for a request with nothing installed to look for; with a fallback the two can differ, as `IndexerExamples.CheckpointHidesKey` shows.
- Progress counters and the counts in `Result`, rename aliases, package types and the set of kinds are held fixed: a change of a disabled kind is one that yields no key.
- An event is identified by its commit, package and kind; other columns are functions of these.
- Times are naturals with 0 as the zero time; each commit has one time, and theorems about heads assume that times do not increase towards the root.
- A scan key is an injective datatype where the program hashes its parts; the installed packages in it are a multiset.
- Unrelated histories are an error of the merge base. Definition parsing is an uninterpreted property of a change. Contents fetched ahead are those read later.
- A failing Git command is one of the points at which a call may be cut off.
- `IndexPackage` inserts events outside the scans and is not part of this model.

Sync coordinator:

- Requests carry no `Since` and no kinds; progress, persistence of runs and notifications are not modelled.
- Coordinators.Coordinator.EnsureRange: without the bound that the request carries, which only the jobs read.
- CoordinatorProgress.ClosedStepsDrain: does not bound the batches of a job inside `run`, which are the indexer's to end; each leaves the bound as it is (`CoordinatorProgress.BatchesDelayNothing`).
- Discovery may fail in any setup, and cancelling the root context reaches lookups by events of their own: the model has more runs than the program.
- Jobs and lookups are entries of maps under identities, where the program has pointers.
- Fairness of wake-ups and the timing of the refresh loop.

Download queue:

- Waiting between requests to one host, progress counters, condition variables, and errors for a malformed URL or a missing fetch function. That a fetch ends at all is up to the fetch.

Feed:

- Full-text search is the set of packages it returns. Names and queries come trimmed and folded.
- Display columns, cadence and catalog descriptions; overflow of `UnixNano`.
- Feed.Build: promises the feed only when identities are distinct, as they are in the table; a sort with equal identities may leave them in either order.
- Feed.Sort: stands for `slices.SortFunc`, as an insertion sort.

Git streams:

- Errors returned by the callback, cancelled or broken log reads, and the check that an ancestor exists at all.
- `AmbiguousAddition` and `PathCommits`. Parsing of times is a parameter, and resolving a revision is a function that returns trimmed text.

Opening the database:

- OpenStore.OpenPreservingFailures: what the error names is promised when no existence check failed on a file that was there; renaming is atomic; a path at which there is no file is opened directly and not modelled.

Versions:

- `strings.ToLower` is a parameter, required only to leave digits alone; bytes stand for code points up to 255.
