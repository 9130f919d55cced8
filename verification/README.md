# InvoiceOps agent: a verified model

This project models the durable invoice protocol of the InvoiceOps agent and the algorithms around it,
and proves what they keep under crashes, retries, stale workers and any interleaving. To verify the
project: `dafny verify dfyconfig.toml` (Dafny 4.11).

## What is modelled

**The durable protocol.** One run shares a run row, an invoice status, an exception row, the decisions
table, a ledger and a graph checkpoint with workers, two decision makers and operators.

- `Domain` holds the values and rows, `Tables` the mutable rows (class `InvoiceTables`).
- `Worker` is `graph/worker.py` and `graph/retry.py`: each transaction is a function on the rows and a
  method of `PostgresAttemptStore` that carries it out in place; `RetryWorker.ProcessRun` is the retry loop.
- `Decisions` is `api/decision_service.py`; `Graph` is the graph state, its nodes, edges and validator;
  `Services` is `graph/live_services.py` with the validators of the policy and gate schemas.
- `Protocol` puts them into one state machine. Every transaction, ledger read and checkpoint write is one
  step. Any claim ever issued may still settle or fail, the executor may crash between any two steps, and a
  model or rule engine may answer anything its schema admits. A disabled step changes nothing, so every
  list of steps is a run.
- `GraphInvariant` and `Invariant` are the inductive invariant, `Safety`, `Replay`, `Attempts`, `History`
  and `Progress` its consequences for all runs, `ProgressGaps` two families of concrete runs, `DeadLetters` the
  listing of failed runs, `RunCompletes` the completion theorem of the runner, `Review` and `ReviewCompletes` the
  review worker and its completion theorem.
- `Lease` adds time: when every attempt and its back-off end strictly within the lease, claims never overlap.
  `Leased` carries this to the combined protocol.
- `RunLock` is the session lock of `graph/checkpoints.py`, `Adk` the second engine over the same nodes next to the
  first one, and `EngineRuns` shows that the protocol's executor is that first one.

**Around it.** `Ledger` and `LedgerReads` are the append-only ledger under concurrent transactions and its
keyset pages, `InvoiceFollow` and `LateCommits` what following an invoice's pages returns while transactions
commit, `Cassettes` and `Reservations` recorded gateway conversations and the file-system protocol
that protects them, `Gateway` the routes, retries and deadline of one call, `Budget` the cost alerts,
`DecimalText` the canonical decimal printer, `Scheduler` and `Evaluation` the golden-set runner and its counting.

**Abstractions.** A SHA-256 fingerprint is a constructor around what it was taken of, so it is injective.
Decimals are exact rationals; times are integers or exact rationals. Clocks, identifiers, model answers,
file contents and network answers are parameters. A database transaction is atomic and holds its row locks
to its end. An executor holds the run lock until it ends or crashes.

## Where the code does not keep a tempting property

Each of these has the exact condition and a witness.

- Without the timing assumption a stale worker may move the stored attempt and even the redrive cycle
  backwards (`Attempts.AttemptsMayRewind`, `Attempts.CyclesMayRewind`). Strictly within the lease they only
  advance, and lasting exactly the lease is already too long (`Lease.ExactLeaseOverlaps`).
- `graph/adk_runner.py:1` promises the same run and review contract as LangGraph. When a process dies after
  the triaged state is stored and before the review request is, every later run reports "awaiting review" and
  every decision is refused, while LangGraph resumes (`Adk.UnaskedIsStuck`, `Adk.UnaskedIsReachable`). A decision
  is accepted exactly when the request was stored (`Adk.ResumableWhenAsked`).
- A fallback route is starved when the total timeout does not exceed one request's timeout
  (`Gateway.FallbackMayStarve`); otherwise never (`Gateway.FallbackIsTried`).
- Progress of a running run names the wrong node exactly for a duplicate before its rejection is recorded, and
  of a paused run exactly once its review is recorded (`Progress.ActiveNodeIsFrontier`);
  `ProgressGaps.DuplicateShownExtracting` and `ProgressGaps.ReviewedShownWaiting` are the two runs, for every
  content hash, reason code and rationale the schemas admit. The state
  that `graph/runtime.py:99-129` loads never carries the duplicate mark, so the first one needs a caller that
  hands the runner a state with `duplicate` set.
- Following invoice cursors while transactions commit misses an entry exactly when it was committed after a
  page was read and its (created_at, id) is not past that page's cursor, so everything is returned exactly when
  there is no such entry (`InvoiceFollow.FollowInvoiceWhileAppending`). Committing the invoice's entries in key
  order is enough (`InvoiceFollow.InOrderMissesNothing`), and a writer can see to it before each append
  (`InvoiceFollow.GuardKeepsKeyOrder`); two overlapping transactions lose one although the
  clock never goes back (`LateCommits.LateCommitIsLost`), and within one run it takes a clock that steps back or
  stands still (`LateCommits.LaterEntryIsLost`). Run cursors miss nothing (`LedgerReads.FollowWhileAppending`).
- A failure whose exception name the stored retry state refuses, such as `_Private`, is not recorded: no attempt
  is used up, nothing is dead-lettered and the row stays claimed (`Worker.ProcessVerdict`, `Lease.MoveAdvances`).
- The alerted set of the budget tracker follows the held runs only when there is room for one
  (`Budget.TrackerIsExact`); without room it is the runs whose latest charge alone reached the threshold, and every
  such charge alerts again (`Budget.NoRoomLeaksAlerts`).

## Model

| member | source | states |
|---|---|---|
| Safety.ApprovalIsJustified | src/invoiceops_agent/graph/live_services.py:496-519 | In every reachable state an invoice is APPROVED exactly when a committed gate chose automatic approval on an eligible policy with auto-approval on and the score at the threshold, or the recorded review is a manager's decision superseding a different analyst's, both APPROVE |
| Safety.OncePerRun | src/invoiceops_agent/graph/live_services.py:101-138 | Whatever crashes and re-executes, each workflow event (extraction completed or escalated counting as one) is in the ledger at most once |
| Safety.StatusFromLedger | src/invoiceops_agent/graph/live_services.py:114-119 | In every reachable state the invoice status is a function of committed evidence alone, with an if-and-only-if for each status |
| Replay.OutputsAreCommitted | src/invoiceops_agent/graph/live_services.py:178-371 | In every reachable state each payload in the checkpoint and in the executor's hands is the committed one, whatever the model answered on a re-execution |
| Replay.ReplayReturnsOrRaises | src/invoiceops_agent/graph/live_services.py:226-334 | Reading committed evidence returns exactly that payload, or ends the execution exactly when the ERP snapshot or the order-age signal differs from the committed one; nothing is written either way |
| Replay.EvidenceFits | src/invoiceops_agent/graph/live_services.py:263-345 | In every reachable state all committed evidence belongs to one graph state, each payload carrying the fingerprints of the others it was derived from, and the requests behind taxonomy, policy and gate are made of the committed payloads |
| Replay.RequestsAreTied | src/invoiceops_agent/graph/live_services.py:292-334 | In every reachable ledger the committed taxonomy answers the request made of the committed extraction, validation, match and similarity verdict and the account in the matched snapshot, the committed policy the request with that taxonomy, the committed gate that policy |
| Replay.ValidatorsNeverFail | src/invoiceops_agent/graph/state.py:98-106 | In every reachable state the next service finds its inputs and coherent requests, the progress validator accepts, and automatic approval and human review exclude each other |
| Invariant.RunsKeepInv | src/invoiceops_agent/graph/invoice_runner.py:120-134 | Every step of every run keeps the invariant linking run row, exception, decisions, ledger, checkpoint, executor and claims |
| RunCompletes.RunFinishes | src/invoiceops_agent/graph/invoice_runner.py:44-65 | From every reachable state without an executor, for all fresh answers of the services and with the ERP snapshot and order-age signal committed evidence was made from, one uninterrupted run returns awaiting review, completed or rejected, every event of its path is committed exactly once, the run row is untouched, and running again writes nothing |
| RunCompletes.AttemptFinishes | src/invoiceops_agent/graph/worker.py:366-393 | A worker that can claim the run and is not interrupted leaves it PAUSED for its review or COMPLETED with no failure stored |
| RunCompletes.SomebodyAnswers | src/invoiceops_agent/graph/live_services.py:178-371 | Answers that satisfy every service exist for every input it accepts |
| GraphInvariant.LookKeeps | src/invoiceops_agent/graph/live_services.py:60-80 | A service's read keeps the executor aligned with the ledger: what it holds is the committed prefix, grounded in its state |
| GraphInvariant.CommitKeeps | src/invoiceops_agent/graph/live_services.py:87-138 | A service's write keeps ledger, checkpoint and executor in step: evidence spells the kinds of the path in order |
| GraphInvariant.CheckpointKeeps | src/invoiceops_agent/graph/invoice_nodes.py:63-165 | After each node the validator accepts the state, and the checkpoint's evidence is exactly the ledger's |
| GraphInvariant.ServicesReady | src/invoiceops_agent/graph/live_services.py:263-345 | The digest checks each service makes on its request hold at every execution of its node |
| Graph.FinishPositioned | src/invoiceops_agent/graph/invoice.py:27-45 | Every node moves a state from its own position in the graph to its successor's position: route, status and completed nodes agree with the edge taken |
| Graph.PositionedIsValid | src/invoiceops_agent/graph/state.py:98-106 | A state at any position passes the validator and never completed both AutoApprove and HumanReview |
| Graph.ValidatorRefuses | src/invoiceops_agent/graph/state.py:98-106 | The validator refuses exactly a state with a node completed twice, or completed or rejected without the node that ends it |
| Graph.KindsOrdered | src/invoiceops_agent/graph/invoice.py:27-45 | Along any path through the graph the kinds of evidence strictly ascend, so none repeats |
| Services.AutoRouteMeans | src/invoiceops_agent/schemas/gate.py:76-105 | A coherent gate routes to automatic approval if and only if the policy is eligible, auto-approval is on and the score reaches the threshold, and each other reason has its own condition; then no finding, no approver, a known valid amount; a policy blocks exactly on a duplicate, a cancelled order or an exceeded cap |
| Services.ScoreBounds | src/invoiceops_agent/schemas/gate.py:50-57 | The score of valid terms stays between zero and one, and is one at full confidence |
| Services.ScoreMeans | src/invoiceops_agent/schemas/gate.py:50-57 | The score of a coherent gate is its weighted sum of the least certain field, the match without its gap, and one, one half or nothing for an eligible, reviewed or blocked policy |
| Services.AbsorbReturnsEvidence | src/invoiceops_agent/graph/live_services.py:178-371 | Evidence a service accepts is the payload the node puts into the state |
| Services.FreshIsAccepted | src/invoiceops_agent/graph/live_services.py:178-371 | Evidence written for given inputs is accepted again for the same inputs |
| Services.AcceptedForSameInputs | src/invoiceops_agent/graph/live_services.py:178-371 | Evidence committed for some inputs is accepted exactly for those inputs: a change of anything its service reads makes a re-execution raise |
| Services.LiveInvoiceServices.ReadCache | src/invoiceops_agent/graph/live_services.py:64-80 | The cache read returns the latest committed event of a kind |
| Services.LiveInvoiceServices.ReplayOrRecord | src/invoiceops_agent/graph/live_services.py:178-371 | Committed evidence is returned or refused without a write; otherwise the fresh answer is committed once and returned |
| Services.LiveInvoiceServices.AppendTransition | src/invoiceops_agent/graph/live_services.py:87-138 | An equal committed payload is accepted, a different one raises, a missing one is appended with its invoice status |
| Services.LiveInvoiceServices.TriageException | src/invoiceops_agent/graph/live_services.py:414-494 | A committed triage payload wins over the prepared one; the exception exists afterwards |
| Services.LiveInvoiceServices.AutoApproveInvoice | src/invoiceops_agent/graph/live_services.py:496-505 | Automatic approval is the replay-safe transition naming the policy's input |
| Services.LiveInvoiceServices.Review | src/invoiceops_agent/graph/live_services.py:507-519 | The review is the replay-safe transition to the action's invoice status |
| Services.LiveInvoiceServices.ArchiveInvoice | src/invoiceops_agent/graph/live_services.py:521-529 | Archiving is the replay-safe transition with the run's route |
| Services.LiveInvoiceServices.RejectInvoice | src/invoiceops_agent/graph/live_services.py:531-539 | Rejecting is the replay-safe transition that changes no invoice status |
| Worker.PostgresAttemptStore.BeginAttempt | src/invoiceops_agent/graph/worker.py:120-162 | Claims a run under its lease without persisting the attempt; every refusal of the source has its exact condition |
| Worker.PostgresAttemptStore.SettleAttempt | src/invoiceops_agent/graph/worker.py:164-187 | Settles a running run once; a repeated settlement is accepted, a changed claim refused, each with its exact condition |
| Worker.PostgresAttemptStore.FailAttempt | src/invoiceops_agent/graph/worker.py:189-253 | Persists the failed attempt and dead-letters it with one event when terminal; an error type the stored state refuses raises and writes nothing |
| Worker.PostgresAttemptStore.RedriveRun | src/invoiceops_agent/graph/worker.py:282-349 | Requeues a dead-lettered run in the next cycle once per key; `History.RedriveIsJudged` and `History.RedriveKeyForever` say when and what a repeated key is told |
| DeadLetters.ListDeadLetters | src/invoiceops_agent/graph/worker.py:255-280 | A page of dead letters in the order of the query; fails exactly on a bad limit or when a failed run on the page was not dead-lettered, names no error type or counts no attempt |
| DeadLetters.PageIsOldest | src/invoiceops_agent/graph/worker.py:259-263 | The page holds failed runs only, by failure time and then id, as many as asked for or all, and every failed run not on it failed after those that are |
| DeadLetters.ListingNeverFails | src/invoiceops_agent/graph/worker.py:266-269 | In every reachable state a failed run is listed, with the attempts, cycle, error type and retryability its latest dead-letter event names |
| Worker.RetryWorker.ProcessRun | src/invoiceops_agent/graph/worker.py:366-393 | The retry loop computes the specified outcome, number of executions and total back-off |
| Worker.ProcessVerdict | src/invoiceops_agent/graph/worker.py:366-393 | What a crash-free claimed process leaves behind, in terms of the first verdict alone: settled, dead-lettered once, untouched by a cancelled execution, or claimed and unrecorded when the exception's name cannot be stored |
| Worker.ProcessUnclaimed | src/invoiceops_agent/graph/worker.py:366-393 | Without a claim nothing is written: a refusal is raised without an execution, and a paused or completed run is executed once and its verdict handed on |
| Worker.ProcessBounds | src/invoiceops_agent/graph/worker.py:366-393 | A crash-free process executes at most the remaining attempts and sleeps the delay of each failed attempt another one follows, at most (max attempts - 1) maximum delays |
| Worker.DelayBounds | src/invoiceops_agent/graph/retry.py:30-35 | Delays start at the initial delay, double up to the maximum, never fall and never exceed it |
| Worker.PatternsAdmit | src/invoiceops_agent/graph/worker.py:28-29 | The error types, keys and actors that are admitted, character by character |
| Attempts.DeadLettersBalance | src/invoiceops_agent/graph/worker.py:189-253 | With stale workers included, dead letters equal redrives plus one while FAILED, FAILED carries the record its latest dead-letter event names with one to the maximum of attempts, timestamps follow the status, and the exhausted-budget branch of `begin` is unreachable |
| Attempts.CompletedIsFinal | src/invoiceops_agent/graph/worker.py:131-132 | COMPLETED is absorbing for run row, invoice, exception, its decisions and the workflow evidence, over every later run |
| Attempts.CompletedIsSettled | src/invoiceops_agent/graph/review_worker.py:90-125 | A completed run was archived or rejected, and its exception, if any, was settled by two people: ESCALATED exactly when the manager escalated, RESOLVED exactly when the manager approved or returned |
| Attempts.AttemptsMayRewind | src/invoiceops_agent/graph/worker.py:189-253 | A concrete run in which a stale worker moves the stored attempt back |
| Attempts.CyclesMayRewind | src/invoiceops_agent/graph/worker.py:189-253 | A concrete run in which a stale worker moves the redrive cycle back |
| Lease.OneClaimAtATime | src/invoiceops_agent/graph/worker.py:137-162 | When attempts and back-offs end within the lease, at most one claim is live, it carries the next attempt of the current cycle, and the cycle counts the redrives until settlement |
| Lease.AttemptsNeverRewind | src/invoiceops_agent/graph/worker.py:366-393 | Under that assumption persisted attempts and cycles only advance until the run settles |
| Leased.OneClaimInProtocol | src/invoiceops_agent/graph/worker.py:120-253 | In every run of the combined protocol whose workers respect their leases, with all other steps interleaved, at most one claim is live, it was issued by the protocol, the run row records it, and its worker's settlement or storable failure is never refused |
| Leased.AttemptsAdvanceInProtocol | src/invoiceops_agent/graph/worker.py:366-393 | In such runs persisted attempts and cycles only advance until the run settles |
| Lease.MoveAdvances | src/invoiceops_agent/graph/worker.py:189-253 | A report of a live claim raises the stored attempt by exactly one in the same cycle, or, exactly when its error type cannot be stored, changes no row and gives the claim up |
| Lease.ExactLeaseOverlaps | src/invoiceops_agent/graph/worker.py:138-146 | The assumption is tight: lasting exactly the lease lets a second worker claim the run |
| Decisions.DecisionService.SubmitDecision | src/invoiceops_agent/api/decision_service.py:70-247 | One submission: a request its schema refuses, idempotent replay, every refusal, or one decision with its status change and ledger event; `History.SubmissionIsJudged` and `History.ReplayedKeyForever` say which and what is answered |
| Decisions.ReplayedKey | src/invoiceops_agent/api/decision_service.py:100-118 | A replayed key of an admitted request answers with the recorded decision, stage pending exactly for the analyst, exactly when exception, action, rationale, reason code, proposal and role all agree, else a conflict; nothing is written |
| Decisions.SubmitKeepsFourEyes | src/invoiceops_agent/api/decision_service.py:139-163 | Decisions on an exception stay none, one analyst proposal, or a proposal and the manager decision superseding it |
| History.ReplayedKeyForever | src/invoiceops_agent/api/decision_service.py:95-118 | After a submission was recorded, in every later state of every run a second one under its key writes nothing and gets the very same response exactly when exception, action, rationale, reason code, proposal and role agree; otherwise a conflict, or a refusal of an inadmissible request |
| History.SubmissionIsJudged | src/invoiceops_agent/api/decision_service.py:119-247 | In every reachable state a submission under a new key is recorded exactly when the run is paused on that exception and an analyst is the first to decide or a manager names the one proposal, approving only what was proposed for approval; every refusal has its exact condition and writes nothing |
| History.RedriveIsJudged | src/invoiceops_agent/graph/worker.py:282-349 | In every state of the protocol a redrive succeeds exactly for a failed run and a new valid key, and then requeues it in the next cycle with no attempt used and one event naming key, actor and reason |
| History.RedriveKeyForever | src/invoiceops_agent/graph/worker.py:294-310 | After a redrive, in every later state its key writes nothing, answers "already redriven" exactly to the same actor and reason and refuses anybody else, and the ledger holds at most one redrive per key |
| History.DecisionsFormAPair | src/invoiceops_agent/api/decision_service.py:119-163 | In every reachable state the decisions have the four-eyes shape, the exception's status says which, and decisions hold the run paused or completed |
| History.DecisionsAreLogged | src/invoiceops_agent/api/decision_service.py:204-228 | In every reachable state each decision on the exception has exactly one ledger event of its stage |
| History.StoredValuesAreValid | src/invoiceops_agent/graph/state.py:62-80 | In every reachable state each decision on the exception gives a review its schema admits, and the stored state's content hash is one its schema admits |
| History.RunsOnlyGrow | src/invoiceops_agent/ledger/writer.py:144-166 | No run removes or rewrites a decision or a ledger event |
| Review.DurableGraph.ResumeRun | src/invoiceops_agent/graph/invoice_runner.py:67-102 | Resume enters exactly at a state waiting for this decision or already holding it, and executes the remaining nodes with a checkpoint after each |
| Review.DecisionResumeWorker.ProcessOne | src/invoiceops_agent/graph/review_worker.py:34-136 | One process call: signoff check, resume while paused, settlement; `Review.ProcessedAsSigned` says what its answer means |
| Review.DecisionResumeWorker.SettleDecision | src/invoiceops_agent/graph/review_worker.py:90-125 | The settlement transaction with its evidence and status checks, which `Review.SettlementMeans` characterises |
| Review.SettlementMeans | src/invoiceops_agent/graph/review_worker.py:90-125 | For any rows with unique identifiers a settlement succeeds exactly for a manager decision superseding an analyst's whose review and archive are committed and whose exception nobody closed otherwise; it leaves the exception ESCALATED exactly for ESCALATE and RESOLVED exactly for APPROVE or RETURN, completes the run, and writes nothing when refused |
| Review.ProcessedAsSigned | src/invoiceops_agent/graph/review_worker.py:34-136 | From any rows and checkpoint, process answers with a status only for such a decision, and then the exception has that status, the one its action asks for, the review and the archive are committed and the run is completed |
| ReviewCompletes.ProcessFinishes | src/invoiceops_agent/graph/review_worker.py:67-125 | From every crash point after a decision was accepted, one uninterrupted process ends COMPLETED, answers and leaves ESCALATED exactly for ESCALATE and RESOLVED exactly for APPROVE or RETURN, with the invoice APPROVED, RETURNED or NEEDS_REVIEW as the action says and review and archive recorded once; repeating it changes nothing |
| ReviewCompletes.ResumeRuns | src/invoiceops_agent/graph/invoice_runner.py:81-102 | The worker's resume is a run of the protocol's steps and always completes the graph |
| ReviewCompletes.LookCommitIsAppendOnce | src/invoiceops_agent/graph/live_services.py:101-138 | Reading and then writing a transition as separate steps under the run lock equals the replay-safe transaction |
| ReviewCompletes.AcceptedIsSigned | src/invoiceops_agent/graph/review_worker.py:60-66 | Every accepted manager decision passes the worker's independent signoff check |
| Progress.ReadObserved | src/invoiceops_agent/api/run_progress_reader.py:122-135 | Per node, the newest event of the ledger |
| Progress.ActiveNodeIsFrontier | src/invoiceops_agent/api/run_progress_reader.py:83-119 | After every step the projection of a running run names the graph's frontier, except exactly for an unrejected duplicate; of a paused run exactly until the review is recorded; any other run shows no node |
| ProgressGaps.DuplicateShownExtracting | src/invoiceops_agent/api/run_progress_reader.py:95-96 | For every content hash the schema admits, a concrete run: a duplicate about to be rejected is shown at Extract |
| ProgressGaps.ReviewedShownWaiting | src/invoiceops_agent/api/run_progress_reader.py:88-89 | For every admitted content hash, reason code and rationale, a concrete run from ingestion through both decisions: the review is recorded, Archive is next, and the paused run is shown at HumanReview |
| ProgressGaps.SomeInput | src/invoiceops_agent/api/schemas/decision.py:13-27 | Such values exist |
| RunLock.ExclusiveAndReleased | src/invoiceops_agent/graph/checkpoints.py:63-94 | At most one body executes per run, and no lock outlives the sessions that took it |
| RunLock.QueryTakesFreeLock | src/invoiceops_agent/graph/checkpoints.py:63-94 | A lock query that reaches the server takes a free lock even when its answer is lost; the body runs only when it was free and the answer arrived, and closing gives an unsure lock back |
| RunLock.PostgresRunLock.AcquireAndRun | src/invoiceops_agent/graph/checkpoints.py:63-94 | The body runs exactly when the lock was free and the answer arrived; on every exit the session holds nothing |
| Adk.SameTopology | src/invoiceops_agent/graph/adk_invoice.py:73-84 | The labelled edge table leads every node in every state to the graph's successor, through the asking step exactly after triage |
| EngineRuns.ProtocolRunsEngine | src/invoiceops_agent/graph/invoice_runner.py:44-102 | Whatever workers, people and crashes do, the checkpoint of every run of the protocol is the workflow the graph engine stores when it is run, resumed and killed at the same points |
| Adk.AdkRefinesGraph | src/invoiceops_agent/graph/adk_invoice.py:35-84 | For all service answers, crashes and restarts the ADK workflow shows the same nodes and states as the graph does without the decisions that arrive after a crash left their review unasked |
| Adk.EnginesAgree | src/invoiceops_agent/graph/adk_runner.py:44-163 | Both engines show the same state after every act of a run exactly when no decision of the run arrives after a crash left its review unasked |
| Adk.ActRefines | src/invoiceops_agent/graph/adk_runner.py:44-163 | An act of the ADK engine differs from the graph's exactly when a decision arrives after a crash left its review unasked |
| Adk.EnginesStayValid | src/invoiceops_agent/graph/adk_invoice.py:22-33 | Every stored ADK state passes the progress validator |
| Adk.UnaskedIsStuck | src/invoiceops_agent/graph/adk_runner.py:61-62 | A session stored without its review request never moves again, though the graph would resume it |
| Adk.UnaskedIsReachable | src/invoiceops_agent/graph/adk_runner.py:212-220 | For every content hash the schema admits such a session arises from an escalated extraction and one crash |
| Adk.ResumableWhenAsked | src/invoiceops_agent/graph/adk_runner.py:112-135 | A decision is taken exactly when the graph would take it and it was asked for |
| Adk.AdkSession.ExecuteStep | src/invoiceops_agent/graph/adk_invoice.py:22-33 | The stored state after one step of the session |
| Ledger.LedgerWriter.AppendEvent | src/invoiceops_agent/ledger/writer.py:108-187 | One staged append: lock, identity, supersession and sequence, with every refusal and the store it leaves |
| Ledger.AppendMeans | src/invoiceops_agent/ledger/writer.py:108-167 | Once the run row is locked an append is staged exactly when the run has this invoice and graph version, the superseded entry is visible in the same run and invoice, and the identifier is free; otherwise the refusal says which failed |
| Ledger.LedgerIsSound | src/invoiceops_agent/ledger/writer.py:108-187 | Under any interleaving of committing and rolled-back transactions each run's sequences are exactly 1..n in commit order and supersession points strictly backward in the run and invoice |
| Ledger.LedgerOnlyGrows | src/invoiceops_agent/ledger/writer.py:144-166 | Committed history is append-only |
| Ledger.IdsAreDistinct | migrations/versions/0001_initial_schema.py:271-296 | Under any interleaving of transactions committed identifiers are distinct |
| LedgerReads.FollowWhileAppending | src/invoiceops_agent/ledger/reader.py:41-69 | Following run cursors while transactions commit returns every event once in order, in full pages until the end |
| LedgerReads.RunPageRefused | src/invoiceops_agent/ledger/reader.py:41-55 | A page is refused exactly for a limit outside one to two hundred or another run's cursor |
| LedgerReads.InvoicePageRefused | src/invoiceops_agent/ledger/reader.py:71-85 | The same for the pages of an invoice |
| LedgerReads.OfInvoiceSorted | src/invoiceops_agent/ledger/reader.py:85-101 | The invoice query returns exactly the invoice's rows in strictly ascending key order |
| LedgerReads.FollowInvoiceReturnsAll | src/invoiceops_agent/ledger/reader.py:71-108 | On a fixed ledger, following invoice cursors returns all rows once each in key order |
| LedgerReads.InvoiceCursorMissesLateEntry | src/invoiceops_agent/ledger/reader.py:88-93 | An entry whose key is not past a cursor is not on the page read from that cursor, however late it was committed |
| InvoiceFollow.FollowInvoiceWhileAppending | src/invoiceops_agent/ledger/reader.py:71-108 | Following invoice cursors while transactions commit and roll back returns entries of the invoice once each in key order; an entry reached is missing exactly when it was committed behind a page's cursor, and once no cursor is left all rows were returned if and only if none was |
| InvoiceFollow.InOrderMissesNothing | src/invoiceops_agent/ledger/reader.py:71-108 | When the invoice's entries are committed in (created_at, id) order, a follow that ends has returned all rows |
| InvoiceFollow.GuardKeepsKeyOrder | src/invoiceops_agent/ledger/writer.py:108-167 | If before every append to the invoice no other open transaction has staged one and the clock is past every entry of it the writer sees, the invoice's entries are committed in key order under any interleaving |
| LateCommits.LateCommitIsLost | src/invoiceops_agent/ledger/writer.py:137-143 | Two overlapping transactions on one invoice: the entry stamped first, or at the same time with a smaller identifier, and committed last is on no page, and following ends without it |
| LateCommits.LaterEntryIsLost | src/invoiceops_agent/ledger/writer.py:137-143 | Within one run the same loss takes a clock that steps back, or stands still while the new identifier is smaller |
| Cassettes.CassetteInvocation.RecordRequest | src/invoiceops_agent/gateway_client/cassettes.py:161-246 | One recorded attempt: identity, reservation, outcome or the reason it cannot be recorded; `Cassettes.RecordMeans` says which |
| Cassettes.CassetteInvocation.ReplayRequest | src/invoiceops_agent/gateway_client/cassettes.py:161-215 | One replayed attempt: identity, stored cassette, next outcome or exhaustion |
| Cassettes.RecordMeans | src/invoiceops_agent/gateway_client/cassettes.py:161-246 | An attempt is recorded exactly when it repeats the identity, or is the first and the path was free, and the upstream failed or answered with JSON and a status from 100 to 599; what it returns and adds is what the upstream did |
| Cassettes.ReplayMeans | src/invoiceops_agent/gateway_client/cassettes.py:161-215 | A replayed attempt returns the next stored outcome exactly when there is one and the identity agrees, the first one with a stored cassette of one to six outcomes |
| Cassettes.RecordingCarries | src/invoiceops_agent/gateway_client/cassettes.py:217-246 | Whatever ends a recording, the i-th outcome heard is what the upstream did the i-th time |
| Cassettes.BrokenIsDropped | src/invoiceops_agent/gateway_client/cassettes.py:248-265 | A conversation that broke off publishes nothing |
| Cassettes.RecordReplay | src/invoiceops_agent/gateway_client/cassettes.py:161-265 | Recording then replaying is the identity: same outcomes in order, all consumed, clean finish, and the i-th one heard is what the upstream did the i-th time: a timeout, a connection error, or its status, body and exactly its kept headers in any letter case |
| Cassettes.PublishedWhenShort | src/invoiceops_agent/gateway_client/cassettes.py:248-265 | A finished conversation is published exactly when it has one to six outcomes |
| Cassettes.ReplayIsExact | src/invoiceops_agent/gateway_client/cassettes.py:203-254 | A caller finishes a replay cleanly exactly when it has the recorded conversation, no attempt more or fewer |
| Cassettes.LegacyIsOneOutcome | src/invoiceops_agent/gateway_client/cassettes.py:282-302 | A legacy cassette answers one request and no second one |
| Reservations.OneHolder | src/invoiceops_agent/gateway_client/cassettes.py:267-280 | However file-system calls interleave, at most one recorder holds the reservation |
| Reservations.HolderPublishes | src/invoiceops_agent/gateway_client/cassettes.py:306-308 | A holder past its second check publishes, except exactly when somebody outside the protocol created the cassette |
| Reservations.NeverReplaced | src/invoiceops_agent/artifacts.py:15-19 | A published cassette is never replaced |
| Reservations.NothingLeftBehind | src/invoiceops_agent/gateway_client/cassettes.py:151-159 | Whoever else is running, a reservation on disk belongs to a recorder inside its invocation, an ended recorder's is gone, none is left when all have ended, and at most one of those published, the cassette on disk |
| Reservations.RefusedOnlyForAReason | src/invoiceops_agent/gateway_client/cassettes.py:267-280 | A recorder is turned away exactly because the cassette exists or another one holds the path |
| Reservations.EveryCallProgresses | src/invoiceops_agent/gateway_client/cassettes.py:133-159 | Each file-system call brings its recorder nearer to its end and disturbs no other |
| Reservations.CassettePath.Reserve | src/invoiceops_agent/gateway_client/cassettes.py:267-280 | Reserving holds exactly when both names were free and stayed so, and otherwise leaves no reservation |
| Reservations.CassettePath.WriteNewArtifact | src/invoiceops_agent/artifacts.py:8-19 | Publishes complete content or leaves the destination alone |
| Reservations.CassettePath.Invocation | src/invoiceops_agent/gateway_client/cassettes.py:133-159 | A whole invocation leaves no reservation of its own |
| Gateway.InvokeCore | src/invoiceops_agent/gateway_client/client.py:516-582 | The nested route and retry loops compute the specified verdict and attempts |
| Gateway.CallMeans | src/invoiceops_agent/gateway_client/client.py:516-582 | The whole history of a call for any upstream: the first attempt is at once on the first route, each one has all the time left up to one request's, the next one follows on the same route after its pause or on the next route exactly when attempts, pause or time say so, and the verdict is the last answer's or why there is no further attempt |
| Gateway.PauseMeans | src/invoiceops_agent/gateway_client/client.py:560-567 | A pause is the hint, or the back-off doubled per attempt up to the longest one |
| Gateway.CallKeepsDeadline | src/invoiceops_agent/gateway_client/client.py:526-535 | Every attempt starts before the deadline and is allowed no time past it, in route and time order, never more than routes times attempts |
| Gateway.FallbackIsTried | src/invoiceops_agent/gateway_client/client.py:558-582 | A configured fallback gets at least one attempt when the primary fails only retryably and the total timeout exceeds one request's |
| Gateway.FallbackMayStarve | src/invoiceops_agent/gateway_client/client.py:527-529 | Without that proviso a silent primary uses up the deadline |
| Gateway.RoutesAreDistinct | src/invoiceops_agent/gateway_client/settings.py:40-61 | One route or two different ones, each with the name and version its data class gives it; internal data never follows a public model name |
| Budget.BudgetAlertTracker.Observe | src/invoiceops_agent/gateway_client/budgets.py:15-27 | One observation in place; an unknown cost changes nothing |
| Budget.TrackerIsExact | src/invoiceops_agent/gateway_client/budgets.py:15-27 | After any costs and for any threshold the tracker holds exactly the most recently charged runs with their sums since entry, and alerted is exactly the held runs at the threshold |
| Budget.AlertsAtTheCrossing | src/invoiceops_agent/gateway_client/budgets.py:24-27 | Each stay alerts once, on the charge that takes its sum to a positive threshold; with any other threshold, which the settings refuse, on its first charge |
| Budget.NoRoomLeaksAlerts | src/invoiceops_agent/gateway_client/budgets.py:15-27 | With room for no run, after any costs nothing is held or summed, a run counts as alerted exactly when its latest charge alone reached the threshold, and each such charge alerts again |
| DecimalText.TextIsCanonical | src/invoiceops_agent/schemas/extraction.py:20-25 | Two decimals print alike exactly when they are numerically equal |
| DecimalText.TextReadsBack | src/invoiceops_agent/schemas/extraction.py:20-25 | Parsing the printed text gives the same number |
| Scheduler.ScheduleSampleBatches | eval/runners/run_pipeline.py:297-321 | Batches are a permutation of the selection, of one to the batch size, parents strictly earlier, in the order of the selection, and a sample whose parent is done waits only for a full batch of earlier ones; it fails exactly on a bad size, repeated ids, or a parent chain that cycles or leaves the selection |
| Scheduler.ChunksPartition | eval/runners/run_pipeline.py:165-178 | The stride chunks partition the run identifiers |
| Evaluation.ScoreFields | eval/metrics.py:152-181 | The counts of every header and line field, which `Evaluation.ScoreMeans` characterises |
| Evaluation.ScoreMeans | eval/metrics.py:152-181 | True positives of a field are the known labels whose normal form was read, misses the other known labels, false positives the misses with another readable value and, when the label has lines, the values on lines it does not have |
| Evaluation.RecallBaseIsLabels | eval/metrics.py:152-181 | True positives plus misses of a field are its known labels, whatever was extracted |
| Evaluation.FieldByTier | eval/diagnostics.py:128-153 | The diagnostic totals per tier and field, to which `Evaluation.CaseAdds` says what a case adds |
| Evaluation.CaseAdds | eval/diagnostics.py:128-153 | A case adds its counts to the row of its tier, a duplicate to none, and the empty total is zero |
| Evaluation.PrimaryCounts | eval/metrics.py:392-402 | The counts behind the primary field F1 |
| Evaluation.DiagnosticsSumToPrimary | eval/diagnostics.py:128-153 | The per-tier, per-field diagnostics sum to the primary numerator and denominator |
| Evaluation.F1IsHarmonicMean | eval/metrics.py:193-195 | The fraction behind F1 is the harmonic mean of precision and recall |
| Evaluation.ConfusionFor | eval/diagnostics.py:106-125 | The four cells of a code count the routing cases labelled and detected, labelled only, detected only and neither, so they sum to the routing set and rows and columns to the labelled and detected cases |
| Evaluation.TauSweep | eval/diagnostics.py:206-233 | Over the hundred and one thresholds recall and false escalation never fall and the straight-through rate never rises |
| Evaluation.SweepIsMonotone | eval/diagnostics.py:219-232 | The same between any two thresholds |
| Evaluation.PointMeans | eval/diagnostics.py:206-233 | Recall is the fraction of anomalous cases not let through at the threshold, false escalation that of clean ones, the straight-through rate the fraction of clean cases let through; none when there are no such cases |

## Left out

- Invariant.RunsKeepInv: one run at a time with its identity fields fixed, because ingestion creates one run per invoice (the ledger admits several, and `Ledger` models several), so checkpoints of another run and trace mismatches are not modelled; nor is an executor that lives on after losing the database connection that owns its run lock.
- Services.AutoRouteMeans: gate payloads of the older format without weights are not modelled.
- Services.LiveInvoiceServices.TriageException: the queue projection and the triage agent's evidence are an opaque payload.
- Services.LiveInvoiceServices.ReplayOrRecord: fresh evidence is committed by the agents behind the services, whose bodies are not part of this model; their answers are arbitrary values their schemas admit.
- ReviewCompletes.ProcessFinishes: assumes the run lock is free and the inputs of no other node are needed; a timeout of the resume counts as a crash.
- Attempts.DeadLettersBalance: the database check that a run ends no earlier than it starts, and clock skew against it, are not modelled; store and worker share one retry configuration.
- Progress.ReadObserved: the query that keeps the newest event per node is folded into the loop; the projected node details are left out.
- Adk.AdkRefinesGraph: the ADK library is taken to store a node's state together with its position and to resume there.
- Ledger.LedgerIsSound: an identifier that another open transaction already used is refused at once, where the database waits for that transaction; payloads and version pins are left out.
- LedgerReads.FollowInvoiceReturnsAll: requires distinct identifiers, which `Ledger.IdsAreDistinct` proves of every reachable ledger.
- Cassettes.RecordReplay: the caller reads only retained headers; JSON encoding, the truncated version hash in the file name and the alias transport are left out.
- Reservations.NothingLeftBehind: a killed process and spurious file-system errors are left out.
- Gateway.InvokeCore: when the outer and the inner timeout fire together the inner one is taken; cost, telemetry, response parsing and the semantic cache are left out.
- Evaluation.ScoreFields: normal forms of values are given, not computed; money fields, calibration, latency and cost metrics are left out.
- Scheduler.ChunksPartition: the thread pool and the worker process are left out.
- Running the graph from its start as a method: `InvoiceGraphRunner.run` is modelled by the protocol's steps only.
- Login, webhooks, HTTP routing, tracing, the frontend, OCR, ERP seeding, prompts and the matching, validation and policy rules.
