# Verified model of the AIOps request pipeline

This project models the two services of the repository and proves properties of them in Dafny 4.11:

- **ingress** takes a Slack question into a queue, delivers it to the RCA service, posts the answer and keeps the books
  that make an at-least-once queue bearable. Modules `Tables`, `Delivery`, `Protocol`, `DeliveryTheorems`,
  `DeliveryEffects`, `DeliveryHistory`, `DeliveryLiveness`, `SilentClosure` model it as a state machine over shared
  tables, a Slack log, a clock and any number of workers, where every step may fail, commit and then throw, or be cut
  off by a crash. `Repository`, `Pipeline` and `Dispatching` hold the imperative code: the repository's statements, each
  shown to change the one cell the protocol says it does; `runInvestigation`, shown to take only the protocol's steps
  whatever others do between its calls; and the claim loop with its abandonment.
- **rca-api** runs a cyclic graph of nodes around a model and its tools. `CollectorState`, `CollectorNodes`,
  `CollectorLoops` model the nodes (the specification, and the loops that compute it), `CollectorInvariants` what each
  keeps, `CollectorCeilings` which ceilings it may pass, `CollectorRun` the edges and one visit, `CollectorTheorems`,
  `CollectorHosts`, `CollectorStages`, `CollectorRouting`, `CollectorRecords`, `CollectorJudgements`, `CollectorNotes`,
  `CollectorCapacity`, `CollectorLongestRun`, `CollectorBatches` and `CollectorBatchRuns` what holds over whole runs.
  Model decisions and tool answers are arbitrary inputs within their schemas.
- `EvidenceMerge` and `StateCapacity` are the two lossy accumulators of the graph's state, `ToolPolicy` the registry's
  judgement of a call, `Templates` and `TemplateSync` the template registry and its directory, `Reconcile`,
  `Citations` and `ReportFormat` the report side. `Wrappers` holds Option and Result.

`dafny verify dfyconfig.toml` checks everything.

The lease assumption of the delivery results is stated once, in `Delivery.Spent.Within`: a Slack call ends by its
timeout, the RCA call by its own, and everything else a delivery does, up to and including its closing write, takes at
most the 15 seconds of margin. Tool call ids are taken to be fresh (they are generated UUIDs).

## Where the code does less than its surroundings suggest

- The graph's recursion limit is `8 + 6 * max_iterations` (`services/investigation.py:225`), but a run may visit
  `6 * max_iterations + 10` nodes when its final cycle is refused twice before it is routed. Some run exceeds the limit
  exactly when `max_iterations` is at most 18 (`LimitIsExceededExactly`).
- Above that the ceiling of 20 on `iteration_count` (`graph/state.py:105`) comes first: a run may count
  `max_iterations + 2` passes, and the planner raises in some run exactly when `max_iterations` is 19 or 20
  (`IterationCeilingIsPassedExactly`).
- Five ceilings of the state's schema are kept by no node: 20 hosts, 20 hypotheses, 8 last observations, 20 routing
  rejections and 20 iterations. A state past one of them is refused with an exception; `CeilingsArePassedExactly` gives
  for each node the inputs on which that happens.
- A question may have 2000 characters and becomes a purpose of at most 1000, outside the router's `try`
  (`graph/deterministic_nodes.py:348-365`): a longer question that is granted raises (`RouterRaisesExactly`).
- Two questions of one batch with the same tool and text are told apart neither by the executor nor by the normalizer: the
  adapter can refuse what the router granted (`RepeatedQuestionIsRefused`), and both answers are read against the first
  plan, whichever host they are about (`SecondAnswerMeetsFirstPlan`).
- An abandonment whose closing write commits and then throws leaves a closed row that nobody ever announces
  (`AmbiguousCommitIsSilent`, reached without a crash in `SilentClosureHappens`); the comment at
  `ingress/src/dispatcher.ts:239-241` assumes that a throw means the row is still open. That, and a crash right after the
  closing write, is all that closes a question in silence (`NoSilentClosure`).

## Model

| member | source | states |
|---|---|---|
| Delivery.LockOutlastsDelivery | ingress/src/dispatcher.ts:89-91 | A lock of ceil(timeoutMs / 1000) + 15 s outlasts any delivery whose Slack and RCA calls end by their timeouts and whose database work takes at most 15 s, for every pair of timeouts. |
| Delivery.DueMeansFree | ingress/src/postgres-repository.ts:297-340 | A row the claim query may take has no live delivery: its lock cannot have lapsed under one. |
| Delivery.ClaimKeepsCell | ingress/src/postgres-repository.ts:297-340 | Claiming a due row starts a delivery that satisfies every invariant of the row, its books and its holder. |
| Delivery.HolderStepKeepsCell | ingress/src/pipeline.ts:290-445 | Each step of a delivery (guard reads, acknowledgement, anchor write, RCA call, audit, reply, marker, close, retry, abandon, crash), failing or not, keeps post and marker books, closure, schedule and lease invariants, and never unsettles a request. |
| Delivery.LeftoverStepKeepsCell | ingress/src/dispatcher.ts:230-291 | A worker that has let go of its row (a note, or the steps of an abandonment after its closing write) keeps those invariants whoever holds the row by then. |
| Delivery.OtherLeftoverStays | ingress/src/dispatcher.ts:230-291 | One worker's step never invalidates what another worker still has to do for the same row. |
| Delivery.CloserStays | ingress/src/dispatcher.ts:230-263 | Only the worker that closed the row, or is about to, is ever on record as carrying out its abandonment. |
| Delivery.StepAdvances | ingress/src/postgres-repository.ts:415-445 | No step takes back a settled status, a stored anchor, a closed row or a report row, or posts anything for a settled request. |
| Delivery.AnsweredKeepsCell | ingress/src/postgres-repository.ts:212-223 | The asker's reply, which moves the parent from needs_clarification to clarified, keeps every invariant of the parent's row. |
| Protocol.ArriveKeeps | ingress/src/postgres-repository.ts:161-250 | Saving a Slack event, duplicates included, keeps the invariant of all rows and workers. |
| Protocol.TickKeeps | ingress/src/dispatcher.ts:89-91 | Time passing within the lease assumption keeps it. |
| Protocol.ClaimKeeps | ingress/src/postgres-repository.ts:297-340 | Any worker claiming any due row keeps it, and no second holder appears. |
| Protocol.WorkKeeps | ingress/src/pipeline.ts:290-445 | Any step of any worker keeps it. |
| Protocol.StepKeepsInv | ingress/src/dispatcher.ts:143-204 | So every action of every interleaving keeps the whole invariant. |
| DeliveryTheorems.InvHolds | ingress/src/dispatcher.ts:143-204 | Hence it holds in every state of every run from empty tables. |
| DeliveryTheorems.PostsAndMarkersAgree | ingress/src/pipeline.ts:290-445 | In every reachable state, for each request and each of acknowledgement, clarification and report: posts landed = posts whose marker write was lost + 1 if the marker is stored + 1 if a live delivery is between post and marker; never both of the last two. |
| DeliveryTheorems.NothingPostedTwice | ingress/src/pipeline.ts:398-445 | Posts exceed lost marker writes by at most one, so without a lost write nothing is posted twice. |
| DeliveryTheorems.SettledIsAbsorbingAndSilent | ingress/src/request-status.ts:31-48 | Once a request is settled it stays settled, nothing more is posted for it, and no delivery of it gets past the guards, whatever deliveries, abandonments, recorded errors and Slack replies follow. |
| DeliveryTheorems.ReportRowMeansCompleted | ingress/src/postgres-repository.ts:477-541 | In every reachable state a report row exists exactly when the status is completed. |
| DeliveryTheorems.AnchorNeverChanges | ingress/src/postgres-repository.ts:415-445 | A stored anchor is never changed or erased, and never empty. |
| DeliveryTheorems.OneLiveDelivery | ingress/src/server.ts:27 | No two workers ever hold live deliveries of one row. |
| DeliveryTheorems.LockIsMine | ingress/src/postgres-repository.ts:371-397 | A live delivery always works under the lock of its own claim, not yet lapsed, so its closing write or late retry clears no one else's lock. |
| SilentClosure.NoSilentClosure | ingress/src/dispatcher.ts:230-291 | In every reachable state, a closed row with no abandonment in progress belongs to a settled request or its end was announced, if and only if no earlier event cut its abandonment off while it was neither: a closing write that committed and then threw, or a crash of the worker that had closed it. |
| SilentClosure.CutHasACause | ingress/src/dispatcher.ts:230-263 | Nothing but one of those two events puts a cut-off abandonment on the books. |
| SilentClosure.UncutRunsAreNeverSilent | ingress/src/dispatcher.ts:230-291 | So in every run without such an event each closed, unattended row is settled or was announced. |
| SilentClosure.SilentForever | ingress/src/dispatcher.ts:239 | From such an event on, the row stays closed, unsettled and unannounced in every later state, and no worker is ever on it again. |
| SilentClosure.AmbiguousCommitIsSilent | ingress/src/dispatcher.ts:239 | In every run: a closing write of an abandonment that commits and then throws, for an unsettled request, leaves it so for good. |
| SilentClosure.SilentClosureHappens | ingress/src/dispatcher.ts:239 | Such a run exists from empty tables, whatever the timeouts and without any crash: eight failed deliveries, and a ninth whose closing write commits and then throws. |
| DeliveryTheorems.ClosedIsFinal | ingress/src/dispatcher.ts:230-263 | A closed row never changes or is claimed again, and its end is announced at most once. |
| DeliveryTheorems.BackoffSum | ingress/src/dispatcher.ts:163-188 | The retry delays are 2, 4, 8, ...; n of them add up to 2^(n+1) - 2 seconds. |
| DeliveryTheorems.GivenUpAfterNineDeliveries | ingress/src/dispatcher.ts:79 | Over every run: a question given up on, if every claim of its row ended in a write that returned, was delivered exactly 9 times with delays 2 to 256 and closed no sooner than 510 s after it arrived. |
| DeliveryTheorems.AttemptsCountDeliveries | ingress/src/dispatcher.ts:143-204 | While a row is open its attempts, delays and next due time tell the same story, at most 8 delays. |
| DeliveryEffects.ArrivalStores | ingress/src/postgres-repository.ts:161-250 | In every run: an event whose request id, event id and message are all new adds one row, due at once, and moves the request it replies to from needs_clarification to clarified; nothing else changes, and any other event changes nothing. |
| DeliveryEffects.EventsAreStoredOnce | ingress/src/postgres-repository.ts:161-250 | No two rows of a reachable state share a request id, an event id or a message. |
| DeliveryEffects.StatusMovesExactly | ingress/src/postgres-repository.ts:415-445 | Over every step of every run, the status a request has afterwards: analyzing_question from a landed anchor write, completed, needs_clarification or unsupported from the marker of the matching answer, failed from a landed failure write unless the request is settled, clarified from a reply to it, and otherwise as before. |
| DeliveryEffects.AnchorAndReportMoveExactly | ingress/src/pipeline.ts:330-335 | Only a landed anchor write changes the stored anchor, to the anchor the delivery settled on, and only the landed marker of an answer adds a report row. |
| DeliveryEffects.PostsMoveExactly | ingress/src/pipeline.ts:290-445 | Posts of each kind are counted exactly as they land: with the call that makes them, whatever it then reports, or as their sender crashes. |
| DeliveryEffects.RowMovesExactly | ingress/src/postgres-repository.ts:371-397 | Only a claim, a close, an abandonment and a retry write a queue row, each exactly its columns: attempts and lock, dispatched_at and lock, or next_attempt_at (2^attempts s later) and lock. |
| DeliveryEffects.RepliesAreTakenAsAnswers | ingress/src/postgres-repository.ts:212-223 | In every run: from the marker write that records that the asker was asked for detail the request is needs_clarification, and a later new event naming it as parent leaves it clarified. |
| DeliveryEffects.GivenUpIsMarkedFailed | ingress/src/dispatcher.ts:230-263 | A landed failure write leaves the request failed and nothing else changed, or untouched if it was settled. |
| DeliveryEffects.EachStepLeadsOn | ingress/src/dispatcher.ts:265-291 | In every run: a delivery step that throws ends the delivery; a close that throws is noted; an abandonment goes through its closing steps in order, noting each that throws, until it has announced. |
| DeliveryEffects.EachOutcomeMayCome | ingress/src/pipeline.ts:290-445 | In every reachable state a worker may take its one next call with any outcome, or crash, and nothing else: retry before the ninth attempt, abandonment from it on. |
| DeliveryLiveness.LockIsTight | ingress/src/dispatcher.ts:89-91 | The lock is the least whole number of seconds that covers the RCA timeout, two Slack timeouts and 15 s. |
| DeliveryLiveness.LapsedRowsMayBeClaimed | ingress/src/postgres-repository.ts:297-302 | In every reachable state a row may be claimed if and only if it is open, next_attempt_at has come and it has no lock or a lapsed one; then no live delivery holds it. |
| DeliveryLiveness.OpenRowsComeBack | ingress/src/postgres-repository.ts:297-302 | A row that is open and that nothing has written for longer than a lock and the longest delay may be claimed: whatever crash or failed write left it so, no question is lost. |
| DeliveryLiveness.LostDeliveriesAreReclaimed | ingress/src/postgres-repository.ts:297-302 | After a crash mid-delivery or a closing write that did not land, the row is as its claim left it and may be claimed as soon as that claim's lock has lapsed. |
| DeliveryHistory.ThreadIsHandedDown | ingress/src/pipeline.ts:314-335 | In every run the anchor a delivery stores is the one its claim found; else that of the request it replies to, as stored at the claim; else a ts that Slack returned for its own acknowledgement. |
| DeliveryHistory.StepsComeInOrder | ingress/src/pipeline.ts:290-445 | In every run: nothing is posted before both guards were read, the RCA service is called only after the anchor was stored, an answer is posted only after the call that gave it and its audit records, and an outcome is recorded only after it was posted. |
| DeliveryHistory.AnnouncedLast | ingress/src/dispatcher.ts:230-263 | In every run an abandonment announces third, after its closing write returned and after one try each at marking the request failed and at recording the error, and the announcement is counted once. |
| Repository.RowStatementMeans | ingress/src/postgres-repository.ts:371-397 | A statement on one queue row changes exactly that row's cell and keeps the tables well formed. |
| Repository.StatusStatementMeans | ingress/src/postgres-repository.ts:415-445 | So does a status write, gated for failed only, with the anchor coalesced. |
| Repository.ReportStatementMeans | ingress/src/postgres-repository.ts:477-541 | So does saving a report: row and completed status together. |
| Repository.DuplicateMeans | ingress/src/postgres-repository.ts:161-250 | An event is a duplicate in the tables exactly when it is one among the cells. |
| Repository.SaveSlackRequestMeans | ingress/src/postgres-repository.ts:161-250 | The transaction that saves an event is the protocol's arrival, parent's answer included. |
| Repository.RequestRepository.SaveSlackRequest | ingress/src/postgres-repository.ts:161-250 | An event is new exactly when its request id, event id and message are; then the row, the request and the answered parent as stored, everything else untouched; and for every set of cells the tables represent, the cells after the arrival. |
| Repository.RequestRepository.ClaimDispatch | ingress/src/postgres-repository.ts:278-369 | None exactly when every row is closed, not yet due, or under a lock that has not lapsed; otherwise the oldest row that is none of these, one attempt later, locked for the given seconds from now, with its own and its parent's anchor as stored at that moment. |
| Repository.RequestRepository.CompleteDispatch | ingress/src/postgres-repository.ts:371-383 | Closes the row and clears its lock when the write lands, whether or not the call then throws. |
| Repository.RequestRepository.RetryDispatch | ingress/src/postgres-repository.ts:385-397 | Reschedules the row and clears its lock when the write lands. |
| Repository.RequestRepository.UpdateRequestStatus | ingress/src/postgres-repository.ts:415-445 | Writes the status, refusing failed over a settled one, for every cell the tables represent. |
| Repository.RequestRepository.SaveReport | ingress/src/postgres-repository.ts:477-541 | Writes report row and status in one step, for every cell the tables represent. |
| Repository.RequestRepository.RecordSystemError | ingress/src/postgres-repository.ts:543-584 | Marks the request failed unless it is settled, when the write lands. |
| Repository.ParentAnchorMeans | ingress/src/postgres-repository.ts:278-369 | The parent's anchor a claim hands over is the one of the parent's own row, as stored at the claim. |
| Pipeline.OwnStep | ingress/src/pipeline.ts:245-446 | A call of a delivery is an allowed action of the protocol and leaves its worker on its row. |
| Pipeline.OthersLeaveMe | ingress/src/dispatcher.ts:143-204 | Any allowed action of anyone else (an arrival, a claim, time, another worker) leaves a delivery its row, its phase and the anchors it was handed. |
| Pipeline.QuietStep | ingress/src/pipeline.ts:290-303 | Guard reads, template listing, RCA call and audit write leave tables and channel alone and are steps of the protocol. |
| Pipeline.PostStep | ingress/src/pipeline.ts:388-427 | A post moves Slack and the books together. |
| Pipeline.WriteStep | ingress/src/pipeline.ts:330-335 | A status or report write moves the tables and the cell together. |
| Pipeline.RunInvestigation | ingress/src/pipeline.ts:245-446 | Whatever arrivals, claims, time and other workers do between its calls, and every way it can end: all that happened is a run of the protocol in which this worker took steps of a delivery only, tables and Slack hold what the protocol says of every row, and it returned or threw as the protocol's worker did; it returns only with its request settled, and does when nothing fails. |
| Pipeline.Acknowledge | ingress/src/pipeline.ts:314-335 | The thread is the stored anchor, else the parent's, else the message just posted; exactly a failed post, an empty thread or a failed write throws; otherwise the request is being analysed and that thread is its stored anchor. |
| Pipeline.Publish | ingress/src/pipeline.ts:388-445 | Clarification or report: posted first, marked second; it succeeds exactly when both do, and then the request is needs_clarification, unsupported, or completed with a report row, as the service answered. |
| Pipeline.Investigate | ingress/src/pipeline.ts:314-446 | Past the guards a delivery returns exactly when the acknowledgement, the anchor write, the templates, the RCA call, the audit records, the post and the marker write all go well, with the outcome of the RCA answer stored. |
| Pipeline.StoreAnchor | ingress/src/pipeline.ts:330-335 | Stores analyzing_question with the anchor, or throws. |
| Pipeline.Mark | ingress/src/pipeline.ts:406 | The outcome is stored exactly as the service answered, or the delivery throws. |
| Dispatching.TurnLeavesRowNotDue | ingress/src/dispatcher.ts:143-204 | Completion, retry, abandonment and a failed close all leave the row not due at that instant: the due set strictly shrinks. |
| Dispatching.ServeOneMore | ingress/src/dispatcher.ts:143-204 | Claiming the oldest due row extends a pass that served distinct rows oldest first, each changed by its own turn only. |
| Dispatching.Dispatcher.Abandon | ingress/src/dispatcher.ts:230-263 | The closing write comes first and alone may throw; once it returns, the announcement is made exactly once whichever of the guarded writes fail. |
| Dispatching.Dispatcher.Turn | ingress/src/dispatcher.ts:143-204 | One claim: the row after success, retry, abandonment or a failed close, when it throws, and whether it announces. |
| Dispatching.Dispatcher.RunOnce | ingress/src/dispatcher.ts:143-204 | A pass ends; it serves each due row at most once in created_at order, leaves none due unless it threw, changes no other row, announces exactly the rows given up on, releases running either way, and does nothing while another pass runs. |
| Dispatching.FailingPasses | ingress/src/dispatcher.ts:143-204 | n failing deliveries of one row leave n attempts, the next delay 2^n s, and at least 2^n - 2 s behind them. |
| Dispatching.NineFailuresEndIt | ingress/src/dispatcher.ts:79 | A row whose every delivery throws and whose writes land is given up on at the ninth, not before, no sooner than 510 s after the first, and is never due again. |
| Templates.SaveRecordsANewVersion | ingress/src/postgres-repository.ts:57-149 | A changed template gets the version after the highest on record, also after a delete; an unchanged one records nothing. |
| Templates.SaveKeepsConsistent | ingress/src/postgres-repository.ts:57-149 | Live rows stay equal to their latest history entry; history is only appended to. |
| Templates.DeleteKeepsConsistent | ingress/src/postgres-repository.ts:151-159 | Deleting keeps that and the whole history. |
| Templates.HistoryIsExact | ingress/src/postgres-repository.ts:57-159 | After any sequence of saves and deletes from empty tables the versions of each id are exactly 1 to n. |
| Templates.OneContentPerVersion | ingress/src/postgres-repository.ts:57-159 | And no (id, version) has two contents. |
| Templates.Registry.SaveTemplate | ingress/src/postgres-repository.ts:57-149 | The live row after a save, every other row untouched; an unchanged template changes nothing and a changed one appends exactly its new version; with the changed and created answers. |
| Templates.Registry.DeleteTemplate | ingress/src/postgres-repository.ts:151-159 | Removes the live row and says whether there was one. |
| TemplateSync.SyncMakesFilesTheTruth | ingress/src/template-sync.ts:33-75 | After a sync over some files the live ids and contents are the files. |
| TemplateSync.SecondSyncChangesNothing | ingress/src/template-sync.ts:33-75 | A second sync of the same files changes no row, version or history entry, whatever the store was. |
| TemplateSync.SaveFilesKeepsConsistent | ingress/src/template-sync.ts:45-50 | Saving files keeps the store consistent. |
| TemplateSync.FatesCount | ingress/src/template-sync.ts:45-50 | Created, updated and unchanged together name every file once ... |
| TemplateSync.FatesSort | ingress/src/template-sync.ts:45-50 | ... each in the list that its state before the sync decides. |
| TemplateSync.ReadTemplateFiles | ingress/src/template-sync.ts:114-157 | Reads all files or throws: exactly when one is malformed or two declare the same id. |
| TemplateSync.SyncTemplates | ingress/src/template-sync.ts:33-75 | The loop: store after the sync, the four result lists, and no removal after an empty read. |
| TemplateSync.SyncDirectory | ingress/src/template-sync.ts:33-75 | Reading and syncing together; a directory that cannot be read, or is empty, changes nothing; otherwise live ids and contents are those of the files. |
| EvidenceMerge.MergeKeepsLatest | rca-api/src/aiops_rca/tools/normalizer.py:48-98 | From a duplicate-free list within capacity: ids stay distinct, existing ids keep their places, every held item is the latest reading of its id, capacity is kept, and an addition is dropped exactly when its id is not held at the end. |
| EvidenceMerge.MergingComposes | rca-api/src/aiops_rca/tools/normalizer.py:48-98 | Merging batch a, then b, is merging a ++ b: same evidence, same superseded notes, dropped counts added. |
| EvidenceMerge.AdditionsAreAccountedFor | rca-api/src/aiops_rca/tools/normalizer.py:48-98 | Additions = newly inserted + matched + dropped. |
| EvidenceMerge.MergeEvidence | rca-api/src/aiops_rca/tools/normalizer.py:48-98 | The loop over an insertion-ordered dictionary computes that merge and its notes. |
| StateCapacity.RebuildIsIdempotent | rca-api/src/aiops_rca/graph/state.py:152-205 | Rebuilding a rebuilt state changes nothing, whatever its lists. |
| StateCapacity.NoticeNamesWhatWasCut | rca-api/src/aiops_rca/graph/state.py:152-205 | A rebuild that cuts a list ends with the notice that names it. |
| StateCapacity.TrimmingEveryNodeIsTrimmingOnce | rca-api/src/aiops_rca/graph/state.py:152-205 | After any sequence of appends and rebuilds the findings are the first 99 ever reported, the facts the first 100, with one notice exactly when something was left out. |
| StateCapacity.EarlierStatesArePrefixes | rca-api/src/aiops_rca/graph/state.py:152-205 | Every earlier state's findings and facts are a prefix of every later one's. |
| ToolPolicy.SecondValidation | rca-api/src/aiops_rca/tools/adapters/base.py:51-59 | A call the router granted is accepted again without the catalog's scope if and only if its tool is not generic or the second context still carries the permission. |
| ToolPolicy.VerdictsExactly | rca-api/src/aiops_rca/tools/registry.py:86-139 | A call is allowed if and only if its tool is registered and not blocked, the budget has a call left, a tool that reports the present is not asked about the past, a generic tool has its permission, and the arguments are there and fit the tool; a refusal is worth retrying if and only if it is about the name or the arguments. |
| ToolPolicy.EscapeHatches | rca-api/src/aiops_rca/tools/registry.py:198-325 | In the registry's table the generic tools are query_zabbix, search and esql, each with required arguments, and only get_mappings is blocked. |
| ToolPolicy.PresentCannotProveThePast | rca-api/src/aiops_rca/tools/registry.py:108-117 | A tool that reports the present is refused for a historical question, for good. |
| ToolPolicy.PolicyRefusalsAreFinal | rca-api/src/aiops_rca/tools/registry.py:86-139 | A retryable refusal of a known tool is always about the arguments, never about policy or budget. |
| CollectorInvariants.ResolveHostsKeeps | rca-api/src/aiops_rca/graph/deterministic_nodes.py:82-291 | The host search keeps every reference, uniqueness, budget and provenance invariant of the state. |
| CollectorInvariants.EstablishKeeps | rca-api/src/aiops_rca/graph/live_nodes.py:62-206 | So does the scan. |
| CollectorInvariants.PlanHypothesesKeeps | rca-api/src/aiops_rca/graph/live_nodes.py:214-252 | The hypothesis planner raises exactly when its plan repeats an id, and keeps them otherwise. |
| CollectorInvariants.PlanObservationsKeeps | rca-api/src/aiops_rca/graph/live_nodes.py:313-475 | The observation planner keeps them; its questions name held hypotheses and resolved hosts and fit what is left of the budget. |
| CollectorInvariants.RouteToolsKeeps | rca-api/src/aiops_rca/graph/deterministic_nodes.py:309-403 | The router keeps them; its calls name held hypotheses and resolved hosts and fit the budget as a batch. |
| CollectorInvariants.ExecuteToolsKeeps | rca-api/src/aiops_rca/graph/deterministic_nodes.py:417-539 | The executor keeps them for any mix of answers, failures and exceptions. |
| CollectorInvariants.NormalizeEvidenceKeeps | rca-api/src/aiops_rca/graph/deterministic_nodes.py:550-610 | The normalizer keeps them: the ids held before keep their places in the evidence after, which comes only from answers that were not errors. |
| CollectorInvariants.UpdateHypothesesKeeps | rca-api/src/aiops_rca/graph/live_nodes.py:491-660 | The updater keeps them; hypothesis ids only grow; citations and facts name held evidence. |
| CollectorInvariants.PackageIsValid | rca-api/src/aiops_rca/schemas/evidence_package.py:215-231 | The package's own reference check never fails on a state the nodes keep. |
| CollectorInvariants.TrimmingKeepsCore | rca-api/src/aiops_rca/graph/state.py:152-205 | Trimming keeps them. |
| CollectorLoops.SearchHosts | rca-api/src/aiops_rca/graph/deterministic_nodes.py:154-291 | The search loop with all its early exits computes the search the invariants are proved of. |
| CollectorLoops.FindHosts | rca-api/src/aiops_rca/graph/deterministic_nodes.py:82-152 | So do the loops that pick the hosts. |
| CollectorLoops.ScanHosts | rca-api/src/aiops_rca/graph/live_nodes.py:62-206 | So does the scan loop, stopping at the budget. |
| CollectorLoops.ConsiderProposals | rca-api/src/aiops_rca/graph/live_nodes.py:377-475 | So does the planner's loop over proposals. |
| CollectorLoops.RouteQuestions | rca-api/src/aiops_rca/graph/deterministic_nodes.py:309-403 | So does the router's loop, raising where it raises. |
| CollectorLoops.CollectOutcomes | rca-api/src/aiops_rca/graph/deterministic_nodes.py:463-539 | So does the executor's loop over outcomes. |
| CollectorLoops.NormalizeObservations | rca-api/src/aiops_rca/graph/deterministic_nodes.py:563-610 | So does the normalizer's loop. |
| CollectorLoops.UpdateFromDecision | rca-api/src/aiops_rca/graph/live_nodes.py:536-660 | So do the updater's three loops, over a dictionary of hypotheses in insertion order. |
| CollectorLoops.ConfirmFacts | rca-api/src/aiops_rca/graph/live_nodes.py:635-652 | New facts are kept once each, and only when all they cite is held. |
| CollectorRun.TrimmedIsReady | rca-api/src/aiops_rca/graph/state.py:152-205 | Trimming between two nodes changes neither the next node nor any entry condition. |
| CollectorRun.RouterReady | rca-api/src/aiops_rca/graph/deterministic_nodes.py:309-403 | A routing leads to a node whose entry conditions hold, within the visit budget. |
| CollectorRun.GuardReady | rca-api/src/aiops_rca/graph/routing.py:9-36 | The stop guard leads to another cycle only within every limit, and otherwise to the package with a reason. |
| CollectorTheorems.StepIsSound | rca-api/src/aiops_rca/graph/builder.py:39-106 | Along every edge of the graph the next node's entry conditions and the visit budget hold again. |
| CollectorTheorems.RunsRaiseExactly | rca-api/src/aiops_rca/graph/state.py:207-249 | Over every run a visit raises if and only if its inputs make it: a hypothesis plan that repeats an id, a question the router would grant that is too long for a purpose, or a node given more than one of the five ceilings no node keeps; the validator's invariants, the updater's guard and the package check are never the reason. |
| CollectorCeilings.CeilingsArePassedExactly | rca-api/src/aiops_rca/graph/state.py:51-142 | Which node passes which ceiling and on exactly which inputs: the host search, when more than 20 reported names are either asked for by nobody or the only match of a request; the scan, when more than 8 scans name a resolved host, can be read and are answered, and the budget has more than 8 calls left; the planner, when not stopped at iteration_count 20; the router, when it may grant nothing and recorded plus retryable refusals pass 20; the updater, when held hypotheses plus newly proposed ids pass 20; no other node can. |
| CollectorCeilings.SearchFinds | rca-api/src/aiops_rca/graph/deterministic_nodes.py:154-291 | The search asks for another turn as long as every lookup so far was answered, a request is not yet satisfied and budget is left, and it finds what the turns it takes report. |
| CollectorCeilings.HostsPass | rca-api/src/aiops_rca/graph/deterministic_nodes.py:82-152 | It holds one host for each reported name that nobody asked for or that alone matches a request. |
| CollectorCeilings.ScanRecords | rca-api/src/aiops_rca/graph/live_nodes.py:62-206 | The scan records as many answers as it can get, up to what is left of the budget. |
| CollectorCeilings.NothingGrantable | rca-api/src/aiops_rca/graph/deterministic_nodes.py:309-403 | Within the budget the router leaves no call exactly when no question is grantable, and then records the retryable refusals. |
| CollectorCeilings.ProposalsAdd | rca-api/src/aiops_rca/graph/live_nodes.py:616-634 | New hypotheses add exactly the proposed ids not yet held, each once. |
| CollectorCeilings.UpdaterPassesExactly | rca-api/src/aiops_rca/graph/live_nodes.py:491-660 | So the updater passes 20 exactly when held plus newly proposed ids do. |
| CollectorTheorems.ReferencesHoldEverywhere | rca-api/src/aiops_rca/graph/state.py:207-249 | At every node of every run: unique ids, every reference resolved, tool_call_count = number of results <= max_tool_calls, batches of at most 8, evidence only from recorded answers that were not errors. |
| CollectorTheorems.VisitsAreBounded | rca-api/src/aiops_rca/services/investigation.py:225 | A run visits at most 6 * max_iterations + 6 nodes and 2 more for each refused pass of its final cycle, at most two, so 6 * max_iterations + 10 in all, and within the configured recursion limit when at most one pass is refused; the planner counts at most max_iterations + 2 passes. |
| CollectorTheorems.EveryRunIsShort | rca-api/src/aiops_rca/services/investigation.py:225 | No run, finished, raised or still going, is longer than 6 * max_iterations + 10. |
| CollectorTheorems.CeilingKeepsTheLimit | rca-api/src/aiops_rca/graph/state.py:105 | With 19 or more iterations every run, however it ends, stays within the recursion limit. |
| CollectorTheorems.PlannerRaisesLate | rca-api/src/aiops_rca/graph/state.py:105 | The planner raises only at its 21st pass, and only with at least 19 iterations. |
| CollectorTheorems.RunGoesOn | rca-api/src/aiops_rca/graph/builder.py:39-106 | Until it ends, a run can always take another visit. |
| CollectorTheorems.StagesAreReadyForTheirWork | rca-api/src/aiops_rca/graph/routing.py:39-132 | The executor always has calls and no stop_reason, the updater observations, the package builder a stop_reason; at the planner without one, iteration_count <= max_iterations - 1 + routing_attempts. |
| CollectorTheorems.FallThroughIsUnreachable | rca-api/src/aiops_rca/graph/routing.py:113-132 | The router always leaves calls, a stop or a refusal: the last answer of its edge is never taken, and it goes to the package exactly when stopped. |
| CollectorTheorems.RecordsOnlyGrow | rca-api/src/aiops_rca/graph/deterministic_nodes.py:417-610 | Results and evidence ids of an earlier state are a prefix of a later one's. |
| CollectorTheorems.HypothesesOnlyGrow | rca-api/src/aiops_rca/graph/live_nodes.py:491-660 | In every run, once hypotheses are planned, the ids of an earlier state are a prefix of a later one's. |
| CollectorTheorems.StopIsFinal | rca-api/src/aiops_rca/graph/routing.py:39-132 | Once a stop_reason is set one stays set, no tool is called again and the record of results is final. |
| CollectorHosts.HostsAreResolvedExactly | rca-api/src/aiops_rca/graph/deterministic_nodes.py:82-291 | In every run: the hosts are exactly the reported names that nobody asked for or that alone answer a request, each with the id of its first report; the answers of the lookups go on record; without a host the run goes to the package with a reason. |
| CollectorHosts.FirstRequestIsAnswered | rca-api/src/aiops_rca/graph/deterministic_nodes.py:680-686 | A reported name answers the first request it matches, and none if it matches none. |
| CollectorStages.PlansAreTakenUp | rca-api/src/aiops_rca/graph/live_nodes.py:214-252 | In every run: hypotheses are taken up as proposed, active and with nothing for or against them, and the run is stopped exactly when there are none. |
| CollectorStages.QuestionsAreAskedExactly | rca-api/src/aiops_rca/graph/live_nodes.py:313-475 | In every run: the questions are exactly the first usable proposals the budget has room for, in order, each with its known hypotheses, its host or the only one, and the generic permission only where its tool is generic; without a question the run stops. |
| CollectorRouting.BatchesAreRoutedExactly | rca-api/src/aiops_rca/graph/deterministic_nodes.py:309-403 | In every run: exactly the licensed questions become calls, in order; without one the batch goes back to the planner exactly when some refusal is retryable and fewer than two went before, and otherwise the run stops. |
| CollectorRouting.CallsAreLicensed | rca-api/src/aiops_rca/graph/deterministic_nodes.py:309-403 | At every node of every run each planned call was licensed for a question the state still holds. |
| CollectorRouting.ThePastIsNotAskedOfThePresent | rca-api/src/aiops_rca/tools/registry.py:108-117 | So no planned call of any run asks a tool that reports the present about the past. |
| CollectorStages.AnswersAreRecorded | rca-api/src/aiops_rca/graph/deterministic_nodes.py:463-539 | In every run: the answers of a batch are appended to the record in its order and are what is read next; calls that raised leave none. |
| CollectorRecords.TurnsLeaveTheirReadings | rca-api/src/aiops_rca/graph/deterministic_nodes.py:550-610 | In every run: after a turn the evidence is every reading of every answer that did not fail and has a plan and a host, the latest of each id, up to 200; a turn without answers ends the run with an error. |
| CollectorRecords.ScansAreRecorded | rca-api/src/aiops_rca/graph/live_nodes.py:62-206 | In every run: the scan puts the answers it may get on record, in order, and holds their readings as evidence. |
| CollectorRecords.EveryCallHasItsPurpose | rca-api/src/aiops_rca/graph/deterministic_nodes.py:463-482 | In every run every call on record has a purpose, which never changes. |
| CollectorRecords.CallsAreRecordedForWhatTheyAsk | rca-api/src/aiops_rca/graph/deterministic_nodes.py:463-482 | And it is the right one: finding the hosts, scanning the host it names, or the question of its own call. |
| CollectorJudgements.TurnsAreJudged | rca-api/src/aiops_rca/graph/live_nodes.py:536-660 | In every run: of a turn's facts exactly those citing held evidence only are added, once each, up to 100; new hypotheses are the first proposals under unused ids, active and bare; the stop reason is the updater's. |
| CollectorStages.GuardEndsExactly | rca-api/src/aiops_rca/graph/routing.py:9-36 | In every run: the guard ends the investigation if and only if a reason to stop or an error is set, or calls, iterations or time are used up, and flags the limit exactly then. |
| CollectorRecords.PackageHoldsTheInvestigation | rca-api/src/aiops_rca/graph/live_nodes.py:663-735 | In every run: from the package builder on, the package holds the hosts, evidence, facts, unknowns, hypotheses with their confidence, stop reason and limits of the state it was built from, and one entry for each result, in order, under its recorded purpose; without a host there is none. |
| CollectorJudgements.NodesWriteTheirOwn | rca-api/src/aiops_rca/graph/builder.py:39-106 | In every run each node writes its own fields of the state and no other; facts, but for the updater's, only ever lose what is past 100. |
| CollectorNotes.EverythingTurnedAwayIsNoted | rca-api/src/aiops_rca/graph/state.py:24-42 | In every run, at every visit, for every code: what the visit adds to the unknowns, counted from its inputs: ambiguous or missing hosts, spent budgets, unusable and refused proposals, failed, partial and oversized answers, replaced or overflowing evidence, unplaced answers, unsupported updates and facts, report findings; and nothing else. |
| CollectorLongestRun.LongestRun | rca-api/src/aiops_rca/services/investigation.py:225 | With the registry's own table, for every budget of 1 to 18 iterations there is a run of exactly 6 * max_iterations + 10 visits and max_iterations + 2 counted passes: the bounds are exact. |
| CollectorLongestRun.LimitIsExceededExactly | rca-api/src/aiops_rca/services/investigation.py:225 | For every setting from 1 to 20: some run exceeds the configured recursion limit of 6 * max_iterations + 8 if and only if max_iterations <= 18. |
| CollectorLongestRun.CeilingIsPassed | rca-api/src/aiops_rca/graph/state.py:105 | With 19 or 20 iterations the passes a run is entitled to take it past the ceiling of 20 on iteration_count, and it raises. |
| CollectorLongestRun.IterationCeilingIsPassedExactly | rca-api/src/aiops_rca/graph/state.py:105 | For every setting from 1 to 20: the planner raises in some run if and only if max_iterations >= 19. |
| CollectorCapacity.VisitReports | rca-api/src/aiops_rca/graph/state.py:24-42 | Every node only appends to unknowns and facts, and never reports under the code of the capacity notice. |
| CollectorCapacity.VisitAppends | rca-api/src/aiops_rca/graph/state.py:152-205 | So a visit is one append and one rebuild of the two lists. |
| CollectorCapacity.TrimKeepsEarlier | rca-api/src/aiops_rca/graph/state.py:152-205 | Trimming what was appended to trimmed lists keeps every earlier finding and fact in place, at most one notice, and both ceilings. |
| CollectorCapacity.NothingReportedIsLost | rca-api/src/aiops_rca/graph/state.py:152-205 | In every run, at every node: the findings and facts of every earlier node are a prefix of what is held, there is at most one notice, and neither list passes 100. |
| CollectorCapacity.HeldIsTheFirstReported | rca-api/src/aiops_rca/graph/state.py:152-205 | In every run, at every node: the findings held are exactly the first 99 the run has reported, the facts the first 100, with one notice exactly when something was left out. |
| CollectorBatches.RouterGrantsExactly | rca-api/src/aiops_rca/graph/deterministic_nodes.py:322-365 | Within the budget a batch is granted question by question, in order, independent of the place in the batch. |
| CollectorBatches.RouterRaisesExactly | rca-api/src/aiops_rca/schemas/investigation.py:86-94 | The router raises if and only if a question it would grant is longer than the 1000 characters of a purpose. |
| CollectorBatches.LongQuestionRaises | rca-api/src/aiops_rca/schemas/investigation.py:69 | A question of 1001 characters, which its own schema allows, does it when it asks for get_shards of the registry's own table. |
| CollectorBatches.AdapterAgreesExactly | rca-api/src/aiops_rca/graph/deterministic_nodes.py:435-461 | Under the context the executor rebuilds at the same offset, the adapter accepts a granted call if and only if its tool is not generic or the last question with its tool and text has the permission. |
| CollectorBatches.DistinctBatchIsAccepted | rca-api/src/aiops_rca/graph/deterministic_nodes.py:435-461 | So a batch of distinct (tool, question) pairs is accepted whole. |
| CollectorBatches.RepeatedQuestionIsRefused | rca-api/src/aiops_rca/graph/deterministic_nodes.py:435-461 | One esql question twice, permitted only the first time, is granted once by the router and then refused by the adapter, under the registry's own table. |
| CollectorBatches.PurposesAreRecorded | rca-api/src/aiops_rca/graph/deterministic_nodes.py:463-482 | Each answer is recorded under the purpose of the call that got it, whatever subset of the batch raised. |
| CollectorBatches.AnswersFindTheirPlans | rca-api/src/aiops_rca/graph/deterministic_nodes.py:613-630 | An answer is read against the first plan with its call's tool and purpose. |
| CollectorBatches.DistinctBatchPairsItsAnswers | rca-api/src/aiops_rca/graph/deterministic_nodes.py:613-630 | So with distinct pairs, for any subset of calls that raise, against the call that got it. |
| CollectorBatches.SecondAnswerMeetsFirstPlan | rca-api/src/aiops_rca/graph/deterministic_nodes.py:613-630 | One question asked of two hosts with the same tool: both answered, the answer about the second host is read against the call about the first. |
| CollectorBatches.FailedCallsLeaveNoEvidence | rca-api/src/aiops_rca/graph/live_nodes.py:574-597 | No held evidence comes from a failed call of the turn, so the updater's filter withholds nothing. |
| CollectorBatches.LastUpdateDecides | rca-api/src/aiops_rca/graph/live_nodes.py:545-615 | Each hypothesis ends with exactly its last update's status, rationale and citations, restricted to held evidence, and untouched without one. |
| CollectorBatchRuns.GrantedBatchesAreAccepted | rca-api/src/aiops_rca/graph/deterministic_nodes.py:435-461 | In every run, the executor's batch of distinct questions is accepted whole by the adapter. |
| CollectorBatchRuns.AnswersMeetTheirQuestions | rca-api/src/aiops_rca/graph/deterministic_nodes.py:563-604 | In every run, the normalizer reads an answer of such a batch against the call that got it. |
| CollectorBatchRuns.HypothesesEndAsProposed | rca-api/src/aiops_rca/graph/live_nodes.py:545-615 | In every run, the updater leaves each hypothesis as its last update proposed it. |
| Reconcile.ReconciledStaysValid | rca-api/src/aiops_rca/services/investigation.py:506-579 | A report that passes validation passes it again once reconciled, with its title. |
| Reconcile.ValidateReport | rca-api/src/aiops_rca/services/investigation.py:564-579 | Objects to a draft exactly when a section id repeats, a section is not declared or a citation names no evidence, in that order. |
| Reconcile.ReconcilingCitesTheFirst | rca-api/src/aiops_rca/services/investigation.py:506-561 | Where the template declares limitations, one application cites exactly the first 20 events left out: what remains uncited is the rest, in order. |
| Reconcile.RepetitionsCiteThemAll | rca-api/src/aiops_rca/services/investigation.py:506-561 | k applications leave exactly what comes after the first 20k. |
| Reconcile.ReconciledIsSettled | rca-api/src/aiops_rca/services/investigation.py:527-542 | Nothing changes if and only if no event is left out or limitations is not declared. |
| Reconcile.AddingKeepsIds | rca-api/src/aiops_rca/services/investigation.py:553-561 | Sections keep their ids and places; limitations is appended only when absent. |
| Reconcile.LeftOutEventsAreMentioned | rca-api/src/aiops_rca/services/investigation.py:527-561 | The first 20 events left out are mentioned in order at the end of the limitations, new or not, each tagged, citing its event, and cut at 2000 characters; no other section changes. |
| Reconcile.ReconcileEvidence | rca-api/src/aiops_rca/services/investigation.py:506-561 | The loops compute that report. |
| Reconcile.NoFindingsExactly | rca-api/src/aiops_rca/evals/properties.py:165-196 | evidence_refs_resolve finds nothing if and only if every citation names held evidence. |
| Reconcile.ReconciledHasNoFindings | rca-api/src/aiops_rca/services/investigation.py:437-438 | A validated report has no such finding after reconciliation. |
| Reconcile.EvidenceRefsResolve | rca-api/src/aiops_rca/evals/properties.py:165-196 | The nested loops list exactly the citations that do not resolve, in order. |
| Citations.PatternIdsAreKeys | ingress/src/report-format.ts:183-189 | The pattern's alternatives are the non-empty known ids, longest first. |
| Citations.FirstMatchIsLongest | ingress/src/report-format.ts:183-195 | So at each place the longest known id is taken, whenever one is there. |
| Citations.TokensSpellTheText | ingress/src/report-format.ts:190-202 | Finding ids from left to right loses nothing of the text. |
| Citations.EveryKnownIdIsFound | ingress/src/report-format.ts:183-202 | At every token of a text: a letter only where no known id begins, and otherwise the longest that does. |
| Citations.NumberingIsByFirstAppearance | ingress/src/report-format.ts:154-160 | Numbering a list of citations gives no id two numbers, every cited id one, each leading back to its id, in order of first appearance. |
| ReportFormat.MarkersExpandToTheText | ingress/src/report-format.ts:190-202 | Replacing the markers of a numbered text by what their footnotes name gives the text back. |
| ReportFormat.ItemsExpandToTheirText | ingress/src/report-format.ts:333-342 | The same for an item: its text, less a tag of its own. |
| ReportFormat.SectionsFollowTheTemplate | ingress/src/report-format.ts:363-406 | The report shows, in the template's order, exactly the sections that are required or have content and whose problem event, if they need one, exists; a required one without content as a placeholder. |
| ReportFormat.MarkersFollowFirstAppearance | ingress/src/report-format.ts:333-406 | Over a whole report: its markers in reading order (body, item text, support, counter) are the numbers of what it cites in that order, each leads to its footnote, no id has two, and they are given by first appearance. |
| ReportFormat.Formatter.RefNumber | ingress/src/report-format.ts:154-160 | The shared list grows only by an id not yet in it. |
| ReportFormat.Formatter.CiteInline | ingress/src/report-format.ts:190-202 | The first pass over a text numbers its ids left to right and renders it so. |
| ReportFormat.Formatter.RenderItem | ingress/src/report-format.ts:333-342 | Text, then support, then counter references, with numbers that later citations do not disturb. |
| ReportFormat.Formatter.Format | ingress/src/report-format.ts:363-406 | The report in the template's order with its skip and placeholder rules, and footnotes numbered 1 to n. |

## Left out

- Pipeline.RunInvestigation: HTTP, Slack transport, connection pooling, timeouts as such and message wording; each call is an arbitrary reply or failure.
- Protocol.ClaimKeeps: `FOR UPDATE SKIP LOCKED` is taken as one atomic step that may claim any due row; the order oldest first is proved of the single dispatcher's pass.
- DeliveryTheorems.PostsAndMarkersAgree: a post that lands after its caller gave up on it is counted at the moment the caller gave up.
- Dispatching.Dispatcher.RunOnce: the delivery inside a turn is an arbitrary change to the request's row; Pipeline.RunInvestigation says what it does.
- Templates.HistoryIsExact: saves of one id are taken to be serialised, and contents are compared as values where the code compares jsonb.
- TemplateSync.SyncDirectory: the order in which undeclared templates are removed, file names, and the expansion of environment variables.
- CollectorTheorems.RunsRaiseExactly: exceptions from the model client and from the writer's validation of its own draft, string lengths other than a purpose's, an unresolvable time window, and the lists tool_errors and unresolved_hosts are not modelled.
- CollectorRecords.PackageHoldsTheInvestigation: the request, the windows and the phenomenon of the package, which are copied from the request and one model decision.
- CollectorNotes.EverythingTurnedAwayIsNoted: the wording of a note, and the order of notes within a visit.
- ToolPolicy.VerdictsExactly: digits outside ASCII, which Python counts as digits of an id; policies are held under their own names, as the registry builds them.
- CollectorInvariants.NormalizeEvidenceKeeps: what evidence a tool's answer becomes is an input; the rows, summaries and ids built from a response are not modelled.
- CollectorCapacity.NothingReportedIsLost: the messages of unknowns; the state a run starts with is taken to come out of the same validator, as the service builds it.
- CollectorLoops.FindHosts: how two host names are matched (case folding, containment) is a parameter.
- CollectorLoops.CollectOutcomes: asyncio scheduling; calls of a batch give their outcomes in any combination, collected in the order planned.
- ToolPolicy.SecondValidation: the window policy the adapter adds to the arguments of an accepted call.
- ReportFormat.Formatter.CiteInline: the two clean-up replacements after the first pass; ReportFormat.Formatter.Format also leaves out link building, the header and the cut at 39,000 characters.
- Feedback, notes and their tables, signature and token checks, configuration, the evaluation harness and its text heuristics other than `evidence_refs_resolve`: no state of the protocols above.
- The contents of prompts and of the report's prose: decided by a model.
