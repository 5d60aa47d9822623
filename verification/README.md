# Verification of the qjsync lifecycle

qjsync copies vulnerability detections from Qualys into Jira issues and keeps its own table of what it has
done. This project models that machinery in Dafny and proves what it keeps over whole histories of runs,
crashes and human edits, together with the parts it relies on: the rules engine, the scan windows, the
KnowledgeBase cache, pagination, the rate limiter, primary keys and the text sent to Jira. Nothing here was
executed; every statement below is a theorem about the model.

`dafny verify dfyconfig.toml` checks all of it.

## How the model is laid out

* `Store` holds the values: rows of `detection_state`, Jira issues, sightings, configuration, the purge
  classifier.
* `Lifecycle` is the specification. `Decide` names the branch one sighting takes; `Writes` lists the Jira
  writes it makes, in order; `Step` is the committed sighting, `CutStep` one that died after some of its
  writes (the writes stay, the transaction is rolled back). `Purge` and `CutPurge` say the same of the purge
  pass, row by row and issue by issue, with no order of visits.
* `Orchestrator` is the program: a Jira client whose writes take effect at once and may raise, a store with
  commit and rollback, and the loops of `run`. Each method is proved against `Lifecycle`, and `Run` is proved
  to be a legal history of the state machine in `Histories` whatever fails.
* `Laws` says what a sighting and a purge pass do without naming any of these functions: column by column and issue
  by issue, case by case, the counters included. `RuleLaws` does the same for the verdict, the conditions and the
  operators of `Rules`.
* `Histories` is the state machine: runs starting, sightings committing or dying, purge passes committing or
  dying, processes killed, and humans editing any issue between transactions. `Invariants`, `DryRun`,
  `CrashRecovery`, `WriteDiscipline`, `PurgeGate` and `Windows` prove the properties; `Witnesses` gives histories from an empty
  store in which documented promises fail.
* `Rules`, `TokenBucket`, `Identity` and `AdfText` stand alone, the last two on `Text`. `KbFetch` joins `Paging`
  to `KbCache`: what the batch resolver assumes of a request is what the page-following loop delivers.

A sighting carries the rules engine's verdict, the material signature and the fields to be written as inputs.
`Find` is the exact lookup by primary key; `reopenClears` leaves open whether the site's workflow clears a
resolution on reopening. One run is active at a time, as the code assumes.

## Where the code and its documentation differ

The model follows the code. Each of these is a lemma.

* A dry run is documented as read-only. It stores the material hash, so a PUT that was due is skipped by the
  next real run, and a dry full run counts misses, so the next full run can close an agent-tracked row one pass
  early. `DryRun.DryRunBeforeRealRun` says for every pair of modes exactly when a dry run shows in what the next
  real run makes of Jira; `Witnesses.DryRunSwallowsAnUpdate` and `Witnesses.DryFullRunHastensAPurge` reach such cases.
* A dry run finishes as a successful run, so it moves the window of the next incremental run.
  `Windows.RealRunsSeeEverythingExactlyWhen` says exactly when scans go unseen; `Witnesses.DryRunHidesAScan`
  reaches such a case.
* Sticky issues are documented as left alone before any update. Their resolution is; but an unmapped
  detection that finds its primary key on a sticky issue adopts it with a PUT:
  `Histories.StickyIssueIsEditedExactlyOnAdoption`, in a state `Histories.StickyAdoptionIsReachable` reaches.
* An interrupted sync is documented as reconciled by re-running. It is not when the fixed or the stale resolution
  is configured as sticky and the crash came after it was set: `CrashRecovery.RerunAfterCrash` gives the exact
  condition, `Witnesses.CrashIsNotRecoveredFrom` a history.
* The drift and sticky paths store the new hash without a PUT, so the stored hash is the signature Jira
  carries only under the condition in `WriteDiscipline.SyncIsKeptExactlyBy`.
* The description is said to stay under Jira's limit because its long sections are cut. The other sections
  are not, so it does only while they stay within 5739 characters: `AdfText.DescriptionFitsExactlyWhen`, with
  `AdfText.OpeningSize` for what they take.
* A missing signal is documented as never a member of anything; a rule's list that holds a blank has it as a member:
  `RuleLaws.MissingSignal`.
* Primary keys identify detections unless the configured port sentinel is itself a numeral:
  `Identity.KeysIdentifyExactlyWhen`.

## Model

| member | source | states |
|---|---|---|
| Store.NetworkStaleMeansWholeDays | src/qjsync/sync/purge.py:85-91 | a network-scanned row is stale iff its last scan parses and lies at least grace + 1 whole days back |
| Laws.AgentTrackedMeans | src/qjsync/sync/purge.py:48-51 | a row is agent-tracked iff five consecutive characters of its tracking method spell "agent", each in either case |
| Laws.OverdueIs | src/qjsync/sync/purge.py:81-92 | an absent row is stale iff it is agent-tracked and has at least the grace number of misses, or is not and its last scan lies at least 86400 seconds times grace + 1 back |
| Laws.Stamp | src/qjsync/state/repositories.py:111-163 | whatever the branch and the mode, the row of a sighting is stamped with the run, its miss counter reset and its hash replaced, the columns supplied overwritten and the others kept, and no other row changes |
| Laws.Returned | src/qjsync/sync/orchestrator.py:407-430 | when a closed, unprotected detection is sighted again and is not fixed, the issue is open with the fields of the sighting and the row without closure columns iff it was not purged, or re-evaluation is on and it is to be created; otherwise the issue and the closure columns are as before |
| Laws.ReportedFixed | src/qjsync/sync/orchestrator.py:268-289 | a fixed detection closes its open, unprotected issue with the fixed resolution and a note, and the row with it; a closed one stays as it was |
| Laws.LeftToHumans | src/qjsync/sync/orchestrator.py:542-559 | a sighting of an issue with a sticky resolution leaves Jira and the closure columns alone, flags the row and records the resolution |
| Laws.SightedOpen | src/qjsync/sync/orchestrator.py:308-332 | an open, unprotected issue gets the fields of a sighting iff that is to be created and brings another hash; its state, resolution and notes never change |
| Laws.NotBroughtIn | src/qjsync/sync/orchestrator.py:334-358 | an unmapped detection that is fixed or not to be created leaves Jira alone and stays unmapped |
| Laws.Adopted | src/qjsync/sync/orchestrator.py:360-377 | one to be created whose primary key an issue carries is mapped to that issue, which gets the fields and nothing else |
| Laws.Created | src/qjsync/sync/orchestrator.py:360-377 | one to be created without such an issue gets a new one with its key, fields and a note |
| Laws.Rehearsed | src/qjsync/sync/orchestrator.py:245-332 | a dry sighting changes neither Jira nor mapping nor closure, and flags the row iff its issue is sticky, unless it reports a closed detection fixed |
| Laws.CutClosing | src/qjsync/sync/orchestrator.py:274-289 | a sighting that died while closing left the transition before the note, and the rows as they were |
| Laws.CutReturning | src/qjsync/sync/orchestrator.py:414-430 | one that died while bringing an issue back left the reopening before the fields before the note |
| Laws.CutCreating | src/qjsync/sync/orchestrator.py:360-377 | one that died while creating left an issue with all its fields, the note at most missing, that no row knows |
| Laws.CountedMapped | src/qjsync/sync/summary.py:42-50 | which counter a mapped detection raises besides evaluated, case by case, in either mode |
| Laws.CountedUnmapped | src/qjsync/sync/summary.py:42-50 | the same for a detection without an issue |
| Laws.RunCountsStale | src/qjsync/sync/orchestrator.py:494-505 | a run in either mode counts every sighting as evaluated, and as marked stale exactly the absent, unprotected, overdue rows |
| Laws.PurgedRowLaw | src/qjsync/sync/orchestrator.py:494-519 | the purge pass counts a miss for exactly the open rows the run has not stamped, flags those with a sticky issue, closes as purged those that are overdue with it, in a dry run none, and changes no other row |
| Laws.PurgedIssueLaw | src/qjsync/sync/orchestrator.py:505-527 | it closes exactly the issues of those rows with the stale resolution and appends the managed and the stale label where missing, keeping the others in order |
| Laws.CutPurgeLaw | src/qjsync/sync/orchestrator.py:505-527 | a pass that died left closed issues, some relabelled, no other change to any issue, and the rows as they were |
| PurgeGate.PurgeNeedsACompleteFullRun | src/qjsync/sync/purge.py:28-36 | in any history a purge pass comes only after the stream of a full run has ended with nothing but committed sightings since its start |
| Invariants.StepKeepsInv | src/qjsync/sync/orchestrator.py:245-332 | every committed sighting, dry or real, keeps: one issue per primary key, each mapped row's issue exists and carries the row's key, and the three closure columns agree |
| Invariants.CutStepKeepsInv | src/qjsync/state/db.py:40-56 | so does a sighting that died after any number of its Jira writes |
| Invariants.PurgeKeepsInv | src/qjsync/sync/orchestrator.py:473-519 | so does a committed purge pass |
| Invariants.CutPurgeKeepsInv | src/qjsync/sync/orchestrator.py:494-519 | so does a purge pass that died anywhere |
| Invariants.DistinctRowsNeverShareAnIssue | src/qjsync/sync/orchestrator.py:360-377 | two rows mapped to the same issue are the same row |
| Invariants.WritesTouchTheTargetOnly | src/qjsync/sync/orchestrator.py:245-430 | any prefix of a sighting's writes amounts to one change of one issue, and nothing else on the site changes |
| Invariants.StepFrame | src/qjsync/sync/orchestrator.py:245-332 | a sighting leaves the row, the issue and the lookup result of every other primary key as they were |
| Invariants.StepAllFrame | src/qjsync/sync/orchestrator.py:202-206 | a whole batch leaves the primary keys it does not contain as they were |
| DryRun.DryRunFidelity | src/qjsync/sync/orchestrator.py:184-220 | for any batch of distinct keys a dry and a real run in the same mode end with equal counters, purge count included, and the dry run changes no Jira issue |
| DryRun.DuplicatesBreakFidelity | src/qjsync/sync/orchestrator.py:268-430 | with a sighting listed twice the counters of dry and real run agree iff it neither creates, closes nor reopens; otherwise that counter is 2 in the dry run and 1 in the real one |
| DryRun.SameTallies | src/qjsync/sync/orchestrator.py:245-430 | the simulation behind it: sighting by sighting the two runs take the same branches although their rows differ |
| DryRun.SameStaleSet | src/qjsync/sync/orchestrator.py:494-505 | both runs would close the same rows as stale |
| DryRun.DryStepHidesExactlyPuts | src/qjsync/sync/orchestrator.py:321-332 | after a dry sighting the next real one takes the same branch, except that a PUT has become telemetry |
| DryRun.DryRunBeforeRealRun | src/qjsync/sync/orchestrator.py:184-220 | a dry run in either mode before a real run in either mode makes no difference to Jira iff no sighting was due a PUT that changes the issue's fields and, if both are full, no unsighted open agent-tracked row on a non-sticky issue that does not look purged already is two misses short of the grace |
| CrashRecovery.RepeatAfterCut | src/qjsync/state/db.py:40-56 | a sighting cut short after any number of Jira writes and then repeated ends like one that was not, iff it was not the closing of an issue with a sticky fixed resolution after the transition |
| CrashRecovery.StepMakesQuiet | src/qjsync/sync/orchestrator.py:245-430 | after any committed real sighting the same sighting asks nothing of Jira and stamps nothing new |
| CrashRecovery.RepeatAfterCutPurge | src/qjsync/sync/orchestrator.py:494-519 | a purge pass that died after any of its writes and is repeated ends exactly like one that did not, iff it closed nothing or the stale resolution is not sticky |
| CrashRecovery.RerunAfterCrash | src/qjsync/sync/orchestrator.py:202-215 | a run that crashed at any point before its purge pass committed, then a complete re-run, reaches the same mapping, closure, hash and miss count per row and the same issue fields, state and resolution as one run, iff the writes before the crash did not make sticky an issue that was to be closed |
| CrashRecovery.RerunAfterManyCrashes | src/qjsync/sync/orchestrator.py:202-215 | any number of crashed attempts before the complete run make no difference iff none of them did that; one that did spoils every later run |
| CrashRecovery.SecondRunWritesNothing | src/qjsync/sync/orchestrator.py:245-451 | a second real run over the same batch makes no Jira write for any sighting, so none at all in incremental mode |
| CrashRecovery.SecondFullRunOnlyPurges | src/qjsync/sync/orchestrator.py:494-519 | in a full second run an issue changes only by being closed as stale, and never one of the batch |
| Histories.EmptyIsGood | src/qjsync/state/repositories.py:45-53 | an empty store and an empty site satisfy the system invariant |
| Histories.ReachableIsGood | src/qjsync/sync/orchestrator.py:184-220 | every legal history, with crashes, failures, kills and human edits, keeps the system invariant |
| Histories.StampsAreBelow | src/qjsync/state/repositories.py:48-53 | in every reachable state every stamp lies below the id the next run will get, as the results on re-runs and rehearsals ask |
| Histories.MissCounterMeaning | src/qjsync/state/repositories.py:144-183 | in every reachable state the counter of an open row is the number of committed purge passes of runs after its last committed sighting, and its stamp is that sighting's run |
| Histories.LastSightedIs | src/qjsync/state/repositories.py:144-146 | the last sighting the log gives is one on the log with no later one for that key, and conversely |
| Histories.FixedIsNeverConfusedWithPurge | src/qjsync/sync/orchestrator.py:206-289 | a row's reason becomes fixed only by a real sighting with status Fixed while open, stale only by the purge pass of a real full run whose fetch ended without sighting it, and is cleared only by a real sighting that is not Fixed |
| Histories.StaleNeedsGrace | src/qjsync/sync/purge.py:81-83 | an agent-tracked row goes stale only after at least the grace number of committed purge passes since its last sighting in any mode |
| Histories.AtMostOneIssueIsCreated | src/qjsync/sync/orchestrator.py:360-377 | over any history at most one issue is created per primary key, and none where one exists, although crashes lose the mapping |
| Histories.MappingIsForever | src/qjsync/state/repositories.py:148-150 | once set, a row's issue key never changes and names an issue carrying the row's key |
| Histories.StickySafety | src/qjsync/sync/orchestrator.py:542-559 | no step of any run, complete or cut short, changes the resolution, the closed state or the comments of a sticky issue |
| Histories.StickyForever | src/qjsync/sync/orchestrator.py:542-559 | nor does any history, until a human edits the issue again |
| Histories.StickyIssueIsEditedExactlyOnAdoption | src/qjsync/sync/orchestrator.py:361-368 | a sighting writes to a sticky issue iff it is to be created, is not Fixed, and finds its key on that issue while its own row is unmapped |
| Histories.StickyAdoptionIsReachable | src/qjsync/sync/orchestrator.py:361-377 | from an empty store and site: a create dies after its write, a human sets a sticky resolution, and the next run rewrites that issue |
| Histories.RunIsAHistory | src/qjsync/sync/orchestrator.py:184-220 | a complete run as specified, in either mode, dry or real, is a legal history from any idle state, ends idle, and is recorded as successful |
| Witnesses.DryFullRunHastensAPurge | src/qjsync/state/repositories.py:165-183 | from an empty store: a detection is created and missed until two misses short of the grace; an empty real full run leaves its issue open, but closes it if an empty dry full run came before |
| Witnesses.DryRunSwallowsAnUpdate | src/qjsync/sync/orchestrator.py:327-332 | from an empty store: a detection is created and changes; a real run writes the change to its issue, but leaves the old fields if a dry run came before |
| Witnesses.DryRunHidesAScan | src/qjsync/sync/orchestrator.py:217-240 | from an empty store: after a real and a dry run a scan the real run could not see lies in no window of the next incremental run, whatever the overlap |
| Witnesses.CrashIsNotRecoveredFrom | src/qjsync/sync/orchestrator.py:268-289 | from an empty store: with a fixed resolution that counts as sticky, a run that sights a fix closes the row, but one that dies after the transition and is repeated leaves the row open on a closed issue |
| WriteDiscipline.WritesAreMaterialChanges | src/qjsync/sync/orchestrator.py:308-332 | while a row stays open and its sightings are real, to be created, and find the issue not sticky, what its committed sightings send to Jira is exactly one PUT for each change between adjacent signatures, in order, whatever runs, crashes, purge passes, other detections and humans do in between |
| WriteDiscipline.HashIsLastSent | src/qjsync/models/canonical.py:419-433 | and the stored hash is always the signature last sent by them |
| WriteDiscipline.IssueCarriesTheHash | src/qjsync/sync/orchestrator.py:308-332 | which the issue then carries, as long as humans leave its material fields alone and no sighting of it dies |
| WriteDiscipline.WrittenIsInSync | src/qjsync/sync/orchestrator.py:360-430 | creating, adopting, reopening and updating leave the stored hash equal to the signature the issue carries |
| WriteDiscipline.SyncIsKeptExactlyBy | src/qjsync/sync/orchestrator.py:309-332 | a sighting keeps that equality iff it rewrites the fields for real or brings the signature already stored |
| Windows.LastSuccessIsLatest | src/qjsync/state/repositories.py:91-99 | the lookup finds the successful run with the latest start, the larger id on ties, and nothing iff none succeeded |
| Windows.WindowMeans | src/qjsync/sync/orchestrator.py:225-240 | the window sent is the whole second at most overlap before, and less than a second earlier than, the start of the last successful run; the static floor for full runs and without one |
| Windows.NoScanIsLost | src/qjsync/sync/orchestrator.py:225-240 | a scan visible within the overlap lies in the window of the first run that starts once it is visible, without a static floor |
| Windows.FailuresNeverMoveTheWindow | src/qjsync/sync/orchestrator.py:206-210 | failed and unfinished runs leave the next window as it was |
| Windows.StaticFloorDecidesUnmanagedRuns | src/qjsync/sources/qualys/detection.py:108-111 | a run has no managed window iff it is full or nothing succeeded before, and then it covers a scan iff the static floor does |
| Windows.RealRunsSeeEverythingExactlyWhen | src/qjsync/sync/orchestrator.py:225-240 | with dry runs in between, the next incremental window covers every scan the last real run could not see iff it starts no later than the overlap before the first moment after that run |
| Windows.EarlierRunsAreFinal | src/qjsync/sync/orchestrator.py:620-626 | in any history the rows of the runs before the current one never change again |
| Windows.StartIsRecorded | src/qjsync/state/repositories.py:48-53 | whatever happens later, the table tells the mode and the start of every run as it was started |
| Windows.EndIsRecorded | src/qjsync/sync/orchestrator.py:620-626 | a finished run is recorded as successful for good, one whose fetch or sighting failed as failed, and a killed one keeps its status |
| Windows.NoScanIsEverLost | src/qjsync/sync/orchestrator.py:202-240 | over whole histories, judged by the table as it ends up: a scan visible within the overlap lies in the window that the run starting once it is visible computed when it started, if no earlier run that started as late ever succeeds |
| Orchestrator.JiraClient.Perform | src/qjsync/sync/orchestrator.py:65-84 | a write takes effect at once and is journalled, or raises and changes nothing |
| Orchestrator.JiraClient.FindIssueByPrimaryKey | src/qjsync/sync/orchestrator.py:78-78 | returns the issue carrying the key iff there is one |
| Orchestrator.StateStore.Close | src/qjsync/state/db.py:40-56 | the end of a transaction keeps the session's rows and runs, or restores those last committed |
| Orchestrator.StateStore.UpsertSeen | src/qjsync/state/repositories.py:111-163 | stamps the row, resets the counter, and overwrites only what is supplied |
| Orchestrator.StateStore.MarkMissed | src/qjsync/state/repositories.py:165-183 | increments exactly the open rows not stamped in the run and lists each of them once |
| Orchestrator.StateStore.RecordClosed | src/qjsync/state/repositories.py:193-217 | sets the closure columns of the row, the purge stamp only for a purge, and nothing for a missing row |
| Orchestrator.StateStore.SetSticky | src/qjsync/state/repositories.py:219-227 | flags the row and records the resolution, nothing for a missing row |
| Orchestrator.SyncOrchestrator.CheckSticky | src/qjsync/sync/orchestrator.py:542-571 | the gate is the live resolution; the row is flagged iff it is sticky |
| Orchestrator.SyncOrchestrator.ProcessDetection | src/qjsync/sync/orchestrator.py:245-332 | makes exactly the specified writes, row and counters, or died after a prefix of the writes; a dry run cannot die of a write |
| Orchestrator.SyncOrchestrator.HandleFixed | src/qjsync/sync/orchestrator.py:268-289 | the same for a detection reported fixed |
| Orchestrator.SyncOrchestrator.HandleOpen | src/qjsync/sync/orchestrator.py:308-332 | the same for an open issue and an active detection |
| Orchestrator.SyncOrchestrator.HandleDrift | src/qjsync/sync/orchestrator.py:432-451 | the same for an open issue below the threshold |
| Orchestrator.SyncOrchestrator.HandleNoIssue | src/qjsync/sync/orchestrator.py:334-377 | the same for a detection without an issue |
| Orchestrator.SyncOrchestrator.HandleReturned | src/qjsync/sync/orchestrator.py:379-430 | the same for a closed issue whose detection is back |
| Orchestrator.SyncOrchestrator.Snapshot | src/qjsync/sync/orchestrator.py:573-594 | completes a sighting whose writes and bookkeeping are done |
| Orchestrator.SyncOrchestrator.PurgePass | src/qjsync/sync/orchestrator.py:473-519 | visiting the missed rows in any order ends in the order-free specification and its count; if it dies, some stale issues are closed and some of those relabelled |
| Orchestrator.SyncOrchestrator.CloseStale | src/qjsync/sync/orchestrator.py:505-527 | closes, relabels keeping the labels there, and records one stale row, or died in between |
| Orchestrator.SyncOrchestrator.SightTransaction | src/qjsync/sync/orchestrator.py:202-206 | one sighting from begin to commit is a committed step, or a cut one with no row changed |
| Orchestrator.SyncOrchestrator.PurgeTransaction | src/qjsync/sync/orchestrator.py:212-215 | the same for the purge pass |
| Orchestrator.SyncOrchestrator.FinishRun | src/qjsync/sync/orchestrator.py:620-626 | records the status of the run and nothing else |
| Orchestrator.SyncOrchestrator.Run | src/qjsync/sync/orchestrator.py:184-220 | whatever raises, a run is a legal history; if it completes, the world and the counters are those of the specified run over the stream fetched for the computed window, and the run is recorded as successful; otherwise it is recorded as running or failed |
| Rules.StackMeans | src/qjsync/rules/engine.py:83-99 | the accumulated shift, uncapped shift and bypass are the sums over the firing and the firing uncapped modifiers, and whether a bypassing one fires |
| Rules.StackModifiers | src/qjsync/rules/engine.py:83-99 | the loop over the modifiers computes that accumulation |
| Rules.PickRoute | src/qjsync/rules/engine.py:124-134 | returns a route that matches while no earlier one does, and none iff none matches |
| Rules.Evaluate | src/qjsync/rules/engine.py:64-149 | the engine returns the specified verdict, about which the next lemmas are |
| RuleLaws.VerdictMeans | src/qjsync/rules/engine.py:64-165 | unless it is noise, a detection gets the priority of its QDS band plus the firing shifts, Highest only if bypassed or reached without capping modifiers from a base that will do, and is created iff that priority is at or above the least band |
| RuleLaws.BandsAlone | src/qjsync/rules/engine.py:151-165 | where no modifier fires the priority is Medium, High or Highest iff QDS lies in that band, and none below all bands or without QDS |
| RuleLaws.NoiseIsSkipped | src/qjsync/rules/engine.py:75-77 | the verdict is the bare skip iff the noise filter matches |
| RuleLaws.ExplanationMeans | src/qjsync/rules/engine.py:101-120 | the account states the score, its base, what fired, whether Highest was held back, and the level |
| RuleLaws.StackOfOne | src/qjsync/rules/engine.py:87-99 | a modifier that fires contributes its shift, its name, its label if any, and its bypass; one that does not, nothing |
| RuleLaws.StackJoins | src/qjsync/rules/engine.py:83-99 | two lists of modifiers contribute what each does, in order |
| RuleLaws.Destination | src/qjsync/rules/engine.py:122-149 | the first matching route gives project, type and component, the site's own where it has none, and adds its labels after the managed one and those of the modifiers |
| RuleLaws.AllLaws | src/qjsync/rules/engine.py:169-170 | `all` is the conjunction over its list |
| RuleLaws.AnyLaws | src/qjsync/rules/engine.py:171-172 | `any` is the disjunction over its list |
| RuleLaws.Dual | src/qjsync/rules/engine.py:169-174 | negation exchanges the two |
| RuleLaws.Precedence | src/qjsync/rules/engine.py:167-178 | of several forms in one node `all` wins over `any`, `any` over `not`, `not` over the leaf, and an incomplete leaf is false |
| RuleLaws.LeafReads | src/qjsync/rules/engine.py:175-179 | a leaf applies its operator to the signal of its name, the score for "qds", or to none |
| RuleLaws.ComparisonsMean | src/qjsync/rules/operators.py:34-73 | numbers are compared by size and texts at the first difference |
| RuleLaws.FlagsAreNumbers | src/qjsync/rules/operators.py:34-73 | truth values compare as 0 and 1 |
| RuleLaws.UnlikeValues | src/qjsync/rules/operators.py:34-73 | values of different kinds are unequal and every ordering of them is false |
| RuleLaws.ListsCompare | src/qjsync/rules/operators.py:34-73 | lists are equal element by element and ordered by their first difference, false if that has no order |
| RuleLaws.MembershipMeans | src/qjsync/rules/operators.py:76-111 | `in` and `contains` on lists and texts, the looser rule for lists included, and their negations |
| RuleLaws.MissingSignal | src/qjsync/rules/operators.py:11-27 | on a missing signal every ordering, `contains`, `matches` and `exists` are false, and `in` is true only of a list with a blank |
| RuleLaws.PresentSignal | src/qjsync/rules/operators.py:114-128 | `exists` and `matches` on a signal that is there |
| Rules.Frame | src/qjsync/rules/engine.py:167-179 | a condition tree that does not mention QDS evaluates the same for any QDS |
| Rules.QdsMonotone | src/qjsync/rules/engine.py:64-165 | if neither the noise filter nor a modifier mentions QDS, raising or learning QDS never lowers the level and never turns create into skip |
| Rules.HighestIsEarned | src/qjsync/rules/engine.py:101-114 | without a bypass Highest needs base plus uncapped firing shifts of at least 4, and QDS in the high band when that gate is on |
| Rules.ExposureCapsAtHighExactlyUnless | src/qjsync/config/schema.py:110-119 | the level is at most the larger of High and the level without the capping modifiers, iff it is not the case that a bypass fires, the levels reach Highest, and without the capping modifiers they would not or the gates would hold |
| Rules.ExposureCapsAtHigh | src/qjsync/config/schema.py:110-114 | in particular without a bypass |
| Rules.BypassLetsExposureReachHighest | src/qjsync/config/schema.py:115-119 | the exception occurs: a concrete configuration where a bypass lets exposure lift to Highest what would be below High |
| Rules.GatherIgnoresOrder | src/qjsync/rules/engine.py:83-99 | permuting the modifiers leaves shifts, bypass and the labels as a multiset unchanged |
| Rules.ModifierOrderIsIrrelevant | src/qjsync/rules/engine.py:83-149 | and so the action, the priority, the destination and the issue's labels up to order |
| Rules.RoutingIsOrthogonal | src/qjsync/rules/engine.py:122-149 | replacing the routes leaves action, priority, explanation and the labels that are not the route's unchanged |
| KbCache.CachedAsFetched | src/qjsync/state/repositories.py:258-314 | an entry stored and rehydrated is the entry that was fetched |
| KbCache.UpsertedAnswer | src/qjsync/state/repositories.py:258-274 | storing a whole answer refreshes exactly the requested QIDs the server has |
| KbCache.ResolveIsStable | src/qjsync/sources/qualys/source.py:162-189 | resolving one QID changes what no QID resolves to, and caches what it returned |
| KbCache.VmSource.ResolveKb | src/qjsync/sources/qualys/source.py:162-189 | the per-QID resolver gives the row if it is no older than the limit, without a request; else the server's entry, which it stores; else the old row, else nothing |
| KbCache.VmSource.BatchResolveKb | src/qjsync/sources/qualys/source.py:131-160 | makes at most one fetch and memoises exactly the chunk's QIDs, each with its rehydrated cache entry and what the per-QID resolver would give |
| KbCache.VmSource.IterMerged | src/qjsync/sources/qualys/source.py:66-160 | yields every detection in order; a row no older than the limit answers for its QID, else the server, else the old row, else nothing; requested are exactly the QIDs without a row in time, each once, in at most ceil(n/200) fetches; rows are written for exactly those the server has |
| Paging.RestFrom | src/qjsync/sources/qualys/detection.py:62-67 | asking again from a host's id leaves exactly the hosts from that one on |
| Paging.PointerIsRead | src/qjsync/sources/qualys/detection.py:123-144 | the loop goes on from an id iff the warning has no code or 1980 and its URL starts from that id, and stops iff there is no warning, another code, no URL or no id |
| Paging.PairAt | src/qjsync/sources/qualys/detection.py:57-60 | a host's j-th detection comes after those of all earlier hosts and the host's own first j |
| Paging.RestIsASuffix | src/qjsync/sources/qualys/detection.py:62-67 | what is asked for from an id are the hosts with that id or a larger one |
| Paging.IterDetections | src/qjsync/sources/qualys/detection.py:41-67 | against a server that pages in id order with a truncation pointer while hosts remain, the loop ends having yielded every pair in scope once and in order |
| Sorted.SortedDistinct | src/qjsync/sources/qualys/knowledgebase.py:41-43 | the requested ids are the given ones, each once, increasing |
| Paging.FetchKb | src/qjsync/sources/qualys/knowledgebase.py:34-57 | yields the whole KnowledgeBase or exactly the entries asked for, each once, and requests nothing iff the list is empty |
| Paging.Selected | src/qjsync/sources/qualys/knowledgebase.py:41-45 | an entry is among those asked for iff the KnowledgeBase has it and its id is on the list |
| KbFetch.SelectionIsAnswer | src/qjsync/sources/qualys/knowledgebase.py:41-50 | the entries an increasing id list selects from the ordered KnowledgeBase are the server's answer to it, in the same order |
| KbFetch.FetchEntries | src/qjsync/sources/qualys/source.py:150-151 | one batched request, however many pages it takes, returns exactly the answer the batch resolver relies on |
| TokenBucket.TokensInRange | src/qjsync/jira/client.py:50-73 | the tokens stay between 0 and the capacity |
| TokenBucket.BurstIsGranted | src/qjsync/jira/client.py:50-73 | a new bucket grants its first capacity many visits at once |
| TokenBucket.WindowBound | src/qjsync/jira/client.py:50-73 | a window of any length sees at most max(rate, 1) plus rate times length grants |
| TokenBucket.GrantedAfterNap | src/qjsync/jira/client.py:71-73 | after a sleep at least as long as asked the next visit is granted iff the capacity is at least 1 |
| TokenBucket.Bucket.Acquire | src/qjsync/sources/qualys/client.py:71-85 | returns with exactly one token taken after at most one sleep, the trace of visits extended accordingly; with rate zero or less at once and unchanged |
| Identity.KeysIdentifyExactlyWhen | src/qjsync/models/identity.py:31-56 | with or without the unique id part, equal keys mean equal components iff the port sentinel is not a decimal numeral |
| Identity.KeyReads | src/qjsync/models/identity.py:31-56 | the key is host, QID and port in this order between colons, with the unique id last if asked for; blank or absent parts read as their default, others without the whitespace around them |
| Identity.SpellingOfThePort | src/qjsync/models/identity.py:49-51 | a port given as a padded string keys like the number, a blank one like no port |
| Text.NumeralsAreDecimals | src/qjsync/models/identity.py:49-51 | the syntactic numerals are exactly the ways integers are printed |
| Text.ValueOfDigits | src/qjsync/models/identity.py:51-51 | read as a decimal, the printed digits give the number |
| Text.AsciiWhitespace | src/qjsync/jira/adf.py:62-63 | which ASCII characters break a line and which are whitespace |
| AdfText.TruncateFitsExactlyWhen | src/qjsync/jira/adf.py:36-41 | the cut text respects the limit iff nothing had to be cut or the limit is at least the 62 characters of the note |
| AdfText.TruncateTwice | src/qjsync/jira/adf.py:36-41 | cutting is idempotent for every limit |
| AdfText.AdfKeepsTheText | src/qjsync/jira/adf.py:54-66 | the paragraphs hold all visible text in order and no more text than the input, or the placeholder alone when nothing is visible |
| AdfText.AdfIsTight | src/qjsync/jira/adf.py:54-66 | no paragraph is empty, spaced at an end, or contains a line break |
| AdfText.ParagraphsExactlyWhen | src/qjsync/jira/adf.py:54-66 | the paragraphs are the only ones that start and end visibly, hold no break, and stand in the text in order with only whitespace around them and a line break between any two |
| AdfText.FieldShows | src/qjsync/jira/mapper.py:220-224 | cut at any limit the note fits in, a value shows all of itself, or the beginning that leaves room for the note, and the note |
| AdfText.FieldMapper.PutAdf | src/qjsync/jira/mapper.py:208-224 | a missing or empty value or an unknown field changes nothing; otherwise one field changes and lays out the whole value, or its beginning and the note, in tight paragraphs of at most 32000 characters, or holds the placeholder when there is nothing to see |
| AdfText.EnvironmentSize | src/qjsync/jira/adf.py:93-108 | one item per attribute present, the two addresses sharing one, and exactly the characters of the values, their prefixes and one separator |
| AdfText.OpeningSize | src/qjsync/jira/adf.py:129-148 | what the unlimited part of the description takes, from the lengths of address, name, title, attributes and CVE entries |
| AdfText.BuildDescription | src/qjsync/jira/adf.py:111-161 | the document is the opening and the three long sections, each under its heading, with placeholders where there is nothing |
| AdfText.LeadReads | src/qjsync/jira/adf.py:129-137 | the lead names the IP address, the DNS name and the title, with "None" for what is missing |
| AdfText.OpeningReads | src/qjsync/jira/adf.py:138-148 | after the lead come Environment and CVEs, each a list or "None" |
| AdfText.EnvironmentReads | src/qjsync/jira/adf.py:93-108 | the Environment lines, each with its prefix, in order, absent attributes left out |
| AdfText.CvesRead | src/qjsync/jira/adf.py:144-148 | the first 150 CVEs and how many more there are |
| AdfText.ClosingReads | src/qjsync/jira/adf.py:150-159 | Diagnosis, Consequence and Solution each under its own heading |
| AdfText.LongReads | src/qjsync/jira/adf.py:150-159 | a long section lays out its text, or its beginning and the note, in tight paragraphs of at most 9000 characters |
| AdfText.DescriptionFitsExactlyWhen | src/qjsync/jira/adf.py:25-33 | the description stays within Jira's limit for every KnowledgeBase text iff its opening has at most 5739 characters |
| AdfText.TitleCounts | src/qjsync/jira/adf.py:132-138 | a title longer than that is enough to break it |

## Left out

- Orchestrator.SyncOrchestrator.Run: one clock reading stands for those of a whole run, and no human edits an issue during it; the machine in `Histories` has both, transaction by transaction.
- Histories.ReachableIsGood: humans may edit everything about an issue except its primary key, and neither create nor delete issues.
- CrashRecovery.RerunAfterCrash: compares neither comments, which a repeated sighting may post twice, nor run ids and clock readings, nor the two columns that only mirror Jira's resolution.
- Orchestrator.SyncOrchestrator.CheckSticky: an issue that cannot be read counts as not sticky in the code; reads are taken to succeed here.
- Orchestrator.SyncOrchestrator.FinishRun: the counter columns and the end time of the run row are not stored.
- Orchestrator.JiraClient.Perform: transitions by name are always available and may be repeated; a write either takes effect and returns, or raises and has no effect.
- Rules.Evaluate: `str()` and regular expressions on arbitrary values are given functions, and an invalid expression does not raise; the validator that admits only one form per condition is not modelled, so the lemmas hold without it.
- Paging.IterDetections: the generator's laziness and the parsing of a page into hosts and warnings are not modelled.
- Two syncs at the same time, threads inside the rate limiter, and the floating-point rounding of its arithmetic.
- The material signature is a value given with each sighting; the list of material signals, JSON and SHA-256 are not modelled, and distinct signatures have distinct hashes.
- Upper-casing of the tracking method covers ASCII letters.
- Time stamps are integers: parsing and printing of dates is not modelled, only the truncation of the window to whole seconds and the flooring of ages to whole days.
- HTTP, retries, authentication, JQL, XML parsing, field-by-field mapping, comment wording, the job queue, migrations, the command line and logging would add only easy or foreign members.
