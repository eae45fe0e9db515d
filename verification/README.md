# A verified model of the news pipeline's protocols

This Dafny 4.11 project models the stateful core of the news pipeline and proves what its
persistent protocols keep. `dafny verify dfyconfig.toml` checks everything.

Each database transaction is one atomic step. A class holds the tables as maps, sequences and
sets, and every method is tied to the specification the lemmas use: equal to a step function, or,
in the ingest store, proved to be an allowed step of the protocol (`IngestProtocol.RunClaim` and
its neighbours). The lemmas then speak about any sequence of steps. Randomness, clocks, the
network and collaborators become parameters: a transport's answers, the fate of each message
part, the moment of a crash, which transactions commit, the pieces `recv` delivers.

The files follow the program:

- `control_store`, `control_runs`, `control_terms`, `worker` - the lease and fencing task store, all
  interleavings of its operations, the terms each accepted one sets, and the worker loop.
- `ingest_lease`, `ingest_protocol` - source leases whose timestamp is schedule and fencing token
  at once.
- `briefing_ledger`, `ledger_runs` - the run state machine, the write-once seen table and replay.
- `morning_window`, `briefing_engine`, `engine_runs`, `engine_terms` - the window, one briefing run
  against the ledger and the renderer, histories of runs, and what becomes of each input.
- `packing`, `renderer`, `rendering` - greedy packing into chunks of 4000 UTF-16 units
  (section 2.1 of RFC 2781), faithfulness, overflow and optimality.
- `text_layout`, `printed_text` - what a rendered chunk reads like, line by line.
- `telegram_text`, `delivery`, `delivery_runs` - message splitting and crash-tolerant receipts.
- `summarizer`, `summarizer_runs`, `request_text` - the category session's budget and cache, and the
  bytes of its request.
- `http_text`, `broker_framing`, `head_terms` - HTTP framing (section 6 of RFC 9112) under every
  chunking.
- `event_store`, `event_chain`, `event_terms` - the event version log, its four writers, and what
  each adds to it.
- `filtering`, `filter_terms` - batch de-duplication against its quadratic reading, and what each
  result reports.
- `slot_text`, `scheduler`, `slot_terms`, `sweeps` - due slots, what the wall clock shows at them,
  the next slot, and overlapping sweeps.
- `ordering`, `grouping`, `utc_text`, `decimal_text`, `text_rules`, `json_bytes` - text order,
  sorting, grouping, printed times, forbidden characters, display text, JSON and its bytes.

Conventions. SHA-256 identities are modelled by the text they digest, taken to be injective.
Times are integers: microseconds in `utc_text`, the control store, the scheduler and the engine;
seconds in the ingest protocol and the ledger, as their stored timestamps are. Bytes on the wire
are written as their ISO-8859-1 characters. Strings are sequences of code points.

Where the code and its documentation, or the code and an obvious expectation, differ, the code is
followed:

- `claim` documents that an unclaimed task starts at generation 1; the code grants the stored
  generation plus one (scripts/news_container/control_store.py:516-606). The documented value is
  right exactly when the task was never retried (`ControlRuns.GrantStartsAtOneIff`);
  `ControlRuns.RetriedGrantIsSecond` is a history where it is not.
- The summarizer documents that a call consumes budget; a transport exception it does not know
  consumes none (scripts/news_pipeline/briefing_summarizer.py:1195-1212).
  `SummarizerRuns.ChargedIffAsked` is the exact condition, `SummarizerRuns.AnEscapedCallIsFree` a
  call that is free.
- A retry of a failed delivery sends every part again, also those the failed attempt had sent
  (scripts/news_pipeline/delivery.py:498-514). `DeliveryRuns.PartsArriveOnceIff` says when no part
  arrives twice, `DeliveryRuns.RetryCanRepeatAPart` gives a history where one does.
- Appending a committed batch again does not always write nothing
  (scripts/news_pipeline/event_store.py:780-822): two decisions about one event that ask for
  different rows take turns being the latest (`EventChain.TwoDecisionsTakeTurns`), and a decision
  that names its version goes stale. `EventChain.AppendingAgainWritesNothingIff` is the exact
  condition; for a batch that names no version, `EventChain.UnnamedBatchRepeatsIff` reads it off
  the batch.
- A lease value can be written again when waits are short; `IngestProtocol.LeaseValuesNeverRecurIff`
  gives the exact bound and `IngestProtocol.FinalizeRevivesNobody` why it does no harm.

A Content-Length made of superscript digits, or of more than 4300 digits, passes the digit test
and then fails in `int` with a different exception (host/news_egress_broker.py:1344-1347); the
model keeps that outcome apart as `Broken`.

## Model

| member | source | states |
|---|---|---|
| `UtcText.PrintOrder` | scripts/news_container/control_store.py:244-252 | string order of the fixed-width UTC print is time order, for every instant with a four-digit year |
| `UtcText.ParseInvertsPrint` | scripts/news_container/control_store.py:244-252 | the reader recovers every printed instant |
| `ControlStore.TaskIdIsInjective` | scripts/news_container/control_store.py:315-329 | two tasks share an identity text only if kind, slot and job key agree, although the parts are joined and the key is optional |
| `ControlStore.ControlDb.Enqueue` | scripts/news_container/control_store.py:356-406 | validates, is idempotent for an equal payload, refuses a different payload under the same identity and changes nothing then |
| `ControlStore.ControlDb.SelectableTasks` | scripts/news_container/control_store.py:421-458 | pending rows and claimed rows whose printed expiry is at or before the printed cutoff, in (due slot, id) order, cut to the limit |
| `ControlStore.SelectableByFilter` | scripts/news_container/control_store.py:421-458 | ordering in the query and filtering afterwards gives the selectable set in order |
| `ControlStore.ControlDb.TakeClaim` | scripts/news_container/control_store.py:516-606 | grants a free task, takes over an expired claim with generation + 1, returns the holder's own live claim, refuses the rest |
| `ControlStore.ControlDb.Renew` | scripts/news_container/control_store.py:461-508 | extends only the caller's own live claim of exactly this generation |
| `ControlStore.ControlDb.Complete` | scripts/news_container/control_store.py:609-662 | only the live holder appends the run row, sets the state and drops the claim, in one step |
| `ControlStore.ControlDb.AssertClaim` | scripts/news_container/control_store.py:665-698 | accepts exactly the live holder and changes nothing |
| `ControlStore.ControlDb.Retry` | scripts/news_container/control_store.py:701-760 | reopens a failed investigation only for the same identity and the next round |
| `ControlStore.ReachableStoresAreCoherent` | scripts/news_container/control_store.py:516-662 | in every reachable store the state is claimed exactly when a claim row exists, and their generations agree |
| `ControlRuns.FenceIsExact` | scripts/news_container/control_store.py:461-698 | helper: renew, complete and assert accept exactly the same callers |
| `ControlRuns.GenerationsNeverFall` | scripts/news_container/control_store.py:547-606 | no interleaving ever lowers a task's generation |
| `ControlRuns.TakeoverNeedsExpiryOrRetry` | scripts/news_container/control_store.py:547-606 | a new generation is granted only at or after the old lease's stored expiry, or after the old generation failed and was retried |
| `ControlRuns.GrantStartsAtOneIff` | scripts/news_container/control_store.py:516-606 | the grant of a task nobody holds has generation 1 exactly when the task was never retried |
| `ControlRuns.RetriedGrantIsSecond` | scripts/news_container/control_store.py:701-760 | any investigation that fails, is retried and claimed again gets generation 2 although unclaimed |
| `ControlRuns.StaleGenerationIsShutOut` | scripts/news_container/control_store.py:461-698 | once a later generation is granted no renew, complete or assert of an older one ever succeeds or changes anything |
| `ControlRuns.LiveLeaseIsExclusive` | scripts/news_container/control_store.py:516-606 | until its stored expiry nobody but the holder moves or ends a claim, whatever the others do |
| `ControlRuns.HolderCanStillComplete` | scripts/news_container/control_store.py:609-662 | a holder with a lease until E can complete at any moment before E |
| `ControlRuns.OneOwnerPerGeneration` | scripts/news_container/control_store.py:516-606 | no two owners ever act under one generation of a task |
| `ControlRuns.BooksBalance` | scripts/news_container/control_store.py:609-760 | completed rows = [completed], failed rows = retries + [failed], round = first round + retries, run generations strictly increase |
| `ControlRuns.OutcomesAreBounded` | scripts/news_container/control_store.py:701-760 | a scheduled task records at most one outcome for ever, an investigation at most one per round |
| `ControlRuns.SelectorMatchesClaim` | scripts/news_container/control_store.py:421-606 | at one instant the selected rows are exactly those a fresh owner would be granted, though one side compares text and the other times |
| `ControlTerms.RenewalAcceptedIff` | scripts/news_container/control_store.py:461-500 | in any history a renewal is accepted exactly from the named holder of a lease that has not expired, and changes nothing otherwise |
| `ControlTerms.RenewalExtendsTheLease` | scripts/news_container/control_store.py:478-508 | an accepted renewal replies with now + ttl seconds and stores exactly that expiry, keeping owner, generation and attempt and every other row |
| `ControlTerms.GrantedIff` | scripts/news_container/control_store.py:516-606 | a claim is granted exactly on a pending or claimed task that nobody else holds alive |
| `ControlTerms.GrantSetsTheTerms` | scripts/news_container/control_store.py:547-606 | generation, attempt, expiry, owner and task row of every grant: a free task, an expired lease, a repeated claim |
| `ControlTerms.PromisedLeaseCanComplete` | scripts/news_container/control_store.py:461-662 | a holder told "yours until E", by a grant or by a renewal, can complete at any later moment before E whatever others do |
| `ControlTerms.PromisedLeaseCanRenew` | scripts/news_container/control_store.py:461-508 | and can renew again, to now + ttl, so timely heartbeats keep the lease |
| `ControlTerms.CompletionRecordsTheOutcome` | scripts/news_container/control_store.py:609-662 | an accepted completion adds one run row naming holder, generation, verdict and time, settles the task by the verdict and drops the claim |
| `ControlTerms.FencedAcceptedIff` | scripts/news_container/control_store.py:609-698 | completing and asserting are accepted exactly from the live holder |
| `ControlTerms.EnqueueAnswers` | scripts/news_container/control_store.py:356-406 | what an enqueue replies and stores, by whether its identity and payload are on record |
| `ControlTerms.RetryAcceptedIff` | scripts/news_container/control_store.py:701-760 | a retry is accepted exactly on a failed investigation whose payload is the stored one with the next round, and reopens it under its old generation |
| `ControlTerms.SelectionIsOldestFirst` | scripts/news_container/control_store.py:421-458 | which tasks the selector lists, oldest due slot first and then by id |
| `ControlTerms.RefusalsAreTruthful` | scripts/news_container/control_store.py:356-760 | every refusal in every history names a condition that did hold, owner before generation before expiry, and changes nothing |
| `Worker.TakenOverTurnWritesNothing` | scripts/news_container/worker.py:836-972 | a dispatch whose task was claimed away while it ran writes no run row |
| `Worker.TakeTurn` | scripts/news_container/worker.py:836-972 | one turn of the loop adds to processed and failed exactly what the owner's run rows gained |
| `Worker.TurnEndsHow` | scripts/news_container/worker.py:836-972 | how every turn ends: idle exactly on an empty selection, a run row exactly when the claim was granted, the fence held and the lease still stood at completion, and that row's content |
| `Worker.RunWorker` | scripts/news_container/worker.py:777-972 | the turns are the turn function's, stopped by the bound or the first idle one; processed equals the rows this owner wrote, failed its failed rows plus the completions the fence refused, fence_lost the lost fences, with others acting in between |
| `IngestLease.BackoffGrowsToTheCap` | scripts/news_pipeline/ingest_runner.py:1156-1160 | a longer streak never shortens the wait, which never passes a day |
| `IngestLease.BackoffDoubles` | scripts/news_pipeline/ingest_runner.py:1156-1160 | no backoff before the third failure in a row, then twice the cadence, doubling with each further one up to a day |
| `IngestLease.NextDue` | scripts/news_pipeline/ingest_runner.py:1057-1130 | the next due time is the latest of cadence, backoff and retry-after, never sooner than a minute after the finish |
| `IngestLease.FailureStreak` | scripts/news_pipeline/ingest_runner.py:1133-1153 | counts the failed runs since the last success and finds when they began |
| `IngestLease.IngestDb.SyncSources` | scripts/news_pipeline/ingest_runner.py:442-495 | upserts configured sources, retires the rest and never touches an existing next_due_at |
| `IngestLease.IngestDb.ClaimQueries` | scripts/news_pipeline/ingest_runner.py:498-542 | the claims are the first of the wanted due rows in due order, each with all its queries or what the budget leaves, stopping only for want of rows, budget or queries; exactly these rows are leased |
| `IngestLease.DueRowsRead` | scripts/news_pipeline/ingest_runner.py:508-516 | which rows are due and in which order: never scheduled first, then by due time, then by id |
| `IngestLease.GreedyIsUnique` | scripts/news_pipeline/ingest_runner.py:516-535 | that description leaves one possible list of claims |
| `IngestLease.GreedyIsWithinBudget` | scripts/news_pipeline/ingest_runner.py:519-534 | the claims never ask for more queries than the budget |
| `IngestLease.UnlimitedTakesAll` | scripts/news_pipeline/ingest_runner.py:516-535 | without a budget, and with queries in every source, everything wanted is claimed |
| `IngestLease.IngestDb.Persist` | scripts/news_pipeline/ingest_runner.py:832-846 | items are written only while the row still carries the lease |
| `IngestLease.IngestDb.Finalize` | scripts/news_pipeline/ingest_runner.py:1077-1104 | moves next_due_at only while the row still carries the lease |
| `IngestProtocol.RunSync` | scripts/news_pipeline/ingest_runner.py:442-495 | a sync is a step the protocol allows |
| `IngestProtocol.RunClaim` | scripts/news_pipeline/ingest_runner.py:498-542 | a claiming call by a fresh run is an allowed step: what it leases was due, and the registry is the step's |
| `IngestProtocol.RunPersist` | scripts/news_pipeline/ingest_runner.py:832-846 | a persist is an allowed step and writes exactly when the step is accepted |
| `IngestProtocol.RunFinalize` | scripts/news_pipeline/ingest_runner.py:1057-1104 | a finalisation with the computed due time is an allowed step and moves the row exactly when the step is accepted |
| `IngestProtocol.LegalExtends` | scripts/news_pipeline/ingest_runner.py:442-1104 | so every history made of these calls is one the lemmas below speak about |
| `IngestProtocol.TokenNamesTheHolder` | scripts/news_pipeline/ingest_runner.py:832-846 | a run with the source still open passes the timestamp compare if and only if nobody has claimed the source since |
| `IngestProtocol.LeasesIncrease` | scripts/news_pipeline/ingest_runner.py:506-535 | successive leases of a source strictly increase, whatever clocks the runs use |
| `IngestProtocol.FinalizeRevivesNobody` | scripts/news_pipeline/ingest_runner.py:1077-1104 | no finalisation writes the lease of another run that could still use it |
| `IngestProtocol.OlderRunsAreLockedOut` | scripts/news_pipeline/ingest_runner.py:832-846 | once a run claims a source no later step of an older run persists for it or moves its due time, in any interleaving |
| `IngestProtocol.LeaseValuesNeverRecurIff` | scripts/news_pipeline/ingest_runner.py:1077-1104 | no finalisation ever repeats an earlier lease value exactly when every wait exceeds half a lease |
| `IngestProtocol.ShortWaitsCanRecur` | scripts/news_pipeline/ingest_runner.py:1077-1104 | for every shorter wait a two-run history in which an old lease value is written again |
| `BriefingLedger.LedgerDb.BeginRun` | scripts/news_pipeline/briefing_ledger.py:777-849 | starts a run, repeats an identical start, refuses a conflicting one |
| `BriefingLedger.LedgerDb.SeenCandidateIds` | scripts/news_pipeline/briefing_ledger.py:853-885 | the seen ids in input order; duplicates are refused |
| `BriefingLedger.LedgerDb.CompleteRun` | scripts/news_pipeline/briefing_ledger.py:889-1139 | seen rows are first-writer-wins, every event is logged RECORDED or ALREADY_SEEN, the status flips, in one step |
| `BriefingLedger.LedgerDb.Replay` | scripts/news_pipeline/briefing_ledger.py:963-1036 | a completed run answers from its stored rows when ids, order, count and payloads agree and refuses otherwise |
| `BriefingLedger.LedgerDb.FailRun` | scripts/news_pipeline/briefing_ledger.py:1143-1192 | only a running run fails |
| `BriefingLedger.LedgerDb.RecoverStaleRuns` | scripts/news_pipeline/briefing_ledger.py:1196-1233 | exactly the running runs not updated since the cutoff become stale, listed in order |
| `BriefingLedger.LedgerDb.LastCompletedUpper` | scripts/news_pipeline/briefing_ledger.py:1237-1255 | the greatest upper bound among completed runs, or none |
| `LedgerRuns.ReachableLedgersAreSound` | scripts/news_pipeline/briefing_ledger.py:1045-1129 | only completed runs own events; each is RECORDED exactly in the run that first saw its candidate, with the first payload |
| `LedgerRuns.OneRecordedEvent` | scripts/news_pipeline/briefing_ledger.py:1045-1129 | each seen candidate has exactly one RECORDED event; all its others are ALREADY_SEEN in other completed runs |
| `LedgerRuns.NothingIsTakenBack` | scripts/news_pipeline/briefing_ledger.py:889-1233 | seen rows, terminal run states and a completed run's events never change again |
| `LedgerRuns.ReplayIsExact` | scripts/news_pipeline/briefing_ledger.py:963-1036 | after any later operations a completion repeats the original partition iff the batch is the same, and changes nothing either way |
| `LedgerRuns.BeginAnswers` | scripts/news_pipeline/briefing_ledger.py:777-849 | a begin is refused for an empty window or a different row, repeated for an equal one, and otherwise leaves a running run without events |
| `LedgerRuns.CompletionRecords` | scripts/news_pipeline/briefing_ledger.py:1045-1129 | a completion logs every event in order under its mark, makes exactly the unseen ones seen with their own payload, and closes the run |
| `LedgerRuns.FailAnswers` | scripts/news_pipeline/briefing_ledger.py:1143-1192 | only a running run fails, keeping everything but status, code and time |
| `LedgerRuns.RecoveryChangesIff` | scripts/news_pipeline/briefing_ledger.py:1214-1233 | a recovery makes stale exactly the running runs last updated before the cutoff, lists them once each in text order, and changes nothing else |
| `LedgerRuns.PartitionSplitsTheBatch` | scripts/news_pipeline/briefing_ledger.py:285-347 | new and already-seen ids split the batch without loss or overlap, each half in input order |
| `MorningWindow.WindowShape` | scripts/news_pipeline/briefing_contracts.py:330-384 | the window ends at the latest 08:00 not after as_of, is empty iff the last one reached that far, else starts at the later of the last end and the seven-day cap |
| `Packing.GreedyIsMinimal` | scripts/news_pipeline/briefing_renderer.py:349-384 | no order-preserving split into fitting blocks has fewer blocks than a greedy one |
| `Packing.SplitExistsIffEachFitsAlone` | scripts/news_pipeline/briefing_renderer.py:349-384 | some split exists exactly when every record fits in a chunk by itself |
| `Renderer.FitsInherited` | scripts/news_pipeline/briefing_renderer.py:349-384 | a contiguous part of a fitting chunk fits, although dropping its first record can add a label |
| `Renderer.Pack` | scripts/news_pipeline/briefing_renderer.py:349-384 | the loop yields a greedy split of the sorted records into fitting chunks, or names the first record that fits nowhere |
| `Rendering.BodyIsFaithful` | scripts/news_pipeline/briefing_renderer.py:278-384 | the paragraphs of a chunk are its records, each once, in order, each under the label of its own category |
| `Rendering.ChunkStartsWithHeader` | scripts/news_pipeline/briefing_renderer.py:302-384 | helper: a chunk begins with the header line |
| `Rendering.RenderBriefing` | scripts/news_pipeline/briefing_renderer.py:302-384 | faithful chunks within 4000 UTF-16 units, or exactly the error the input deserves: cross-subject, duplicate, unknown subject, overflow |
| `Rendering.ChunkCountIsMinimal` | scripts/news_pipeline/briefing_renderer.py:349-384 | any order-preserving split of the sorted records whose chunk texts fit has at least as many chunks |
| `PrintedText.ParagraphReads` | scripts/news_pipeline/briefing_renderer.py:266-295 | the five lines of a record: [NEW] or [UPDATE] and title, summary, URL or its absence, reasons, facts, each spelled out |
| `PrintedText.ChunkReads` | scripts/news_pipeline/briefing_renderer.py:302-384 | a chunk line by line: the heading, then each record's own five lines in order, behind single blank lines, under a label line that spells its category and stands there exactly when the category changes |
| `PrintedText.BriefingReads` | scripts/news_pipeline/briefing_renderer.py:302-384 | so every chunk of a rendered briefing reads: dated header, the subject's own name, its block of records |
| `PrintedText.RecordsComeInOrder` | scripts/news_pipeline/briefing_renderer.py:298-345 | over all chunks the records come by category, ordinal and candidate, each once |
| `TextRules.NormalizedText` | scripts/news_pipeline/briefing_renderer.py:217-225 | display text holds no forbidden character, no two blanks in a row and no white space at its ends, and is empty exactly when nothing in the source text is visible |
| `TextRules.NormalizeTwice` | scripts/news_pipeline/briefing_renderer.py:217-225 | normalising again changes nothing |
| `TextRules.NormalizeKeepsTheText` | scripts/news_pipeline/briefing_renderer.py:217-225 | normalising loses, adds and reorders no visible character |
| `BriefingEngine.Classify` | scripts/news_pipeline/briefing_engine.py:643-679 | seen first, then window, then eligibility; raises exactly on a seen and ineligible input |
| `BriefingEngine.SummarizeSubjects` | scripts/news_pipeline/briefing_engine.py:695-739 | one request per subject that has inputs to ask about; a missing answer raises |
| `BriefingEngine.RenderSubjects` | scripts/news_pipeline/briefing_engine.py:822-845 | one page per subject with records, or failure exactly when some record of some subject fits nowhere |
| `BriefingEngine.RunAfterBegin` | scripts/news_pipeline/briefing_engine.py:614-931 | proceeds exactly when nothing raises, the record and event validators included, completes the ledger exactly when every page rendered and the ledger took it, and names the failure otherwise |
| `BriefingEngine.BuildRecords` | scripts/news_pipeline/briefing_renderer.py:80-180 | the records with their display text, numbered within their category, or nothing exactly when some item fails the record's checks |
| `BriefingEngine.BuildEvents` | scripts/news_pipeline/briefing_ledger.py:180-282 | the events, or failure exactly when some recordable item fails the event's checks or its payload is too long |
| `BriefingEngine.SafeFailRun` | scripts/news_pipeline/briefing_engine.py:971-991 | the failure note is one ledger step or nothing, and never hides the error |
| `BriefingEngine.ExecuteBriefingRun` | scripts/news_pipeline/briefing_engine.py:529-610 | returns exactly when the window, the begin, the validators and the run allow it; the ledger saw begin and completion, or exactly the steps a raised run got to and one failure note under its code, unless the ledger would not take that |
| `EngineRuns.ReportAccountsForEveryInput` | scripts/news_pipeline/briefing_engine.py:641-687 | included plus excluded items are the inputs, each once; included ones are unseen, in the window and eligible; each excluded one carries its first reason |
| `EngineTerms.IncludedIff` | scripts/news_pipeline/briefing_engine.py:641-679 | an input is included exactly when unseen, evaluated inside the window, not suppressed, and a distinct event or a material update |
| `EngineTerms.ExcludedBecause` | scripts/news_pipeline/briefing_engine.py:646-677 | every other one is listed with its first reason: seen, outside the window, not eligible |
| `EngineTerms.AskableIff` | scripts/news_pipeline/briefing_engine.py:409-434 | which included inputs the summariser is asked about: within every bound, a clean address, a version of an event, no control character |
| `EngineTerms.IncludedComeInOrder` | scripts/news_pipeline/briefing_engine.py:681-705 | included items come subject by subject in the fixed order, inside a subject by category, time, ordinal and candidate |
| `EngineTerms.SummariesAreTheirOwn` | scripts/news_pipeline/briefing_engine.py:706-744 | each carries the answer to its own identity from the one request of its subject, or the fixed fallback when it could not be asked about |
| `EngineTerms.RecordCarriesItsItem` | scripts/news_pipeline/briefing_engine.py:437-467 | each record is its item field by field, numbered by the earlier items of its category |
| `EngineTerms.ItemIsPrinted` | scripts/news_pipeline/briefing_engine.py:797-845 | for every rendered item some chunk of the report opens with the date and the item's subject and holds its record's five lines in a row |
| `EngineTerms.EventCarriesItsInput` | scripts/news_pipeline/briefing_engine.py:470-498 | each event's payload holds, key by key, the input's identity, category, decision, title and snippet, and its event, and nothing of the summariser's |
| `EngineTerms.PayloadBytesAreCounted` | scripts/news_pipeline/briefing_ledger.py:454-520 | the bytes the payload limit is checked against are the UTF-8 length of the canonical JSON payload |
| `EngineTerms.IdentityIff` | scripts/news_pipeline/briefing_contracts.py:143-154 | two event inputs share an identity exactly when subject, event and version agree, an absent version counting as the first |
| `EngineRuns.RenderedAreTheEvents` | scripts/news_pipeline/briefing_engine.py:775-891 | the records on the pages are exactly the events given to complete_run, one each, all of them unseen before |
| `EngineRuns.RunLeavesItsMark` | scripts/news_pipeline/briefing_engine.py:885-891 | the ledger reports every event new and none ALREADY_SEEN, and exactly these identities become seen |
| `EngineRuns.ReturnedRunsComplete` | scripts/news_pipeline/briefing_engine.py:577-610 | what a returned run's two ledger steps did, at any point of a history |
| `EngineRuns.RenderedAtMostOnce` | scripts/news_pipeline/briefing_engine.py:614-931 | no identity is rendered by two runs that completed in one ledger history, whatever operations come between |
| `EngineRuns.ExecuteAll` | scripts/news_pipeline/briefing_engine.py:529-610 | any program of engine calls and other ledger operations, run one at a time, leaves a history of which every entry is what the call ensures on the ledger before it |
| `EngineRuns.NoIdentityIsRenderedTwice` | scripts/news_pipeline/briefing_engine.py:614-931 | over any such history, calls that returned, raised or were rejected, no identity is rendered in two returned results |
| `EngineTerms.FailureCodeSays` | scripts/news_pipeline/briefing_engine.py:584-610 | which code a begun run that raises notes: overflow exactly when sound records hold one too long for a message, ledger failure exactly for a failed lookup, refused events or a failed completion |
| `EngineTerms.RaisedRunsMarkNothing` | scripts/news_pipeline/briefing_engine.py:584-610 | a raised run makes nothing seen unless its completion was committed and only the answer lost; otherwise it ends failed under its code |
| `EngineRuns.ReturnedWindowsFollow` | scripts/news_pipeline/briefing_contracts.py:330-384 | and the windows of returned calls that start from the ledger follow each other without overlap |
| `EngineRuns.WindowsAreDisjoint` | scripts/news_pipeline/briefing_contracts.py:330-384 | windows of completed runs started from the ledger are ordered and disjoint, each starting where the last ended unless the cap cuts in |
| `TelegramText.SplitTelegramText` | scripts/news_pipeline/delivery.py:182-200 | the loop computes the parts the two lemmas below describe |
| `TelegramText.PartsRebuild` | scripts/news_pipeline/delivery.py:182-200 | the parts concatenate to the text and each is a sendable message of 1 to 4096 characters |
| `TelegramText.CutsPreferNewlines` | scripts/news_pipeline/delivery.py:182-200 | every cut is at a newline, or the part is full and held none to cut at |
| `Delivery.ReportDb.DeliverReport` | scripts/news_pipeline/delivery.py:369-551 | one call with any outcome per part and a crash or error at any transaction |
| `Delivery.ReportDb.SendAll` | scripts/news_pipeline/delivery.py:498-514 | parts go out in order, ids persisted after each, stopping at the first trouble |
| `Delivery.ReportDb.MarkAttempt` | scripts/news_pipeline/delivery.py:325-361 | attempt, receipt and report are marked together; the report reads failed for an ambiguous attempt too |
| `DeliveryRuns.ReachableBooksAreCoherent` | scripts/news_pipeline/delivery.py:407-549 | over any calls the receipt matches its latest attempt, earlier attempts are finished, and what arrived is an initial run of the parts |
| `DeliveryRuns.SentMeansDelivered` | scripts/news_pipeline/delivery.py:515-551 | report, receipt and current attempt are sent together; then that attempt's parts arrived once, in order, with one id each, spelling the text |
| `DeliveryRuns.ArrivalsFollowIds` | scripts/news_pipeline/delivery.py:498-549 | of a sent report every part arrived, over all attempts, exactly as often as attempts stored an id for it |
| `DeliveryRuns.PartsArriveOnceIff` | scripts/news_pipeline/delivery.py:498-549 | of a sent report every part arrived once overall exactly when no earlier attempt had stored an id |
| `DeliveryRuns.RetryCanRepeatAPart` | scripts/news_pipeline/delivery.py:498-549 | for every text longer than one message: a declined second part and a retry, after which the report is sent and its first part has arrived twice |
| `DeliveryRuns.SettledReceiptsStaySilent` | scripts/news_pipeline/delivery.py:407-424 | a prepared, ambiguous or sent receipt never causes another send or write |
| `DeliveryRuns.LiveSendsOnlyIf` | scripts/news_pipeline/delivery.py:369-424 | a live call may send exactly when it is deliverable and there is no receipt, a dry one, or a failed one of the same manifest, text and recipient with a retry asked for; otherwise nothing changes |
| `DeliveryRuns.AnotherReceiptConflicts` | scripts/news_pipeline/delivery.py:407-412 | a receipt of another manifest or text, or live for another recipient, is a conflict and nothing arrives |
| `DeliveryRuns.OwnReceiptAnswers` | scripts/news_pipeline/delivery.py:413-424 | what each state of the caller's own receipt answers |
| `DeliveryRuns.TroubleIsRecorded` | scripts/news_pipeline/delivery.py:498-549 | the first declined or unclear part ends the call with attempt, receipt and report marked, the ids so far kept, and the matching error |
| `DeliveryRuns.LiveFacts` | scripts/news_pipeline/delivery.py:457-549 | a live call is delivered exactly when every part was stored and every transaction committed, and never ends in a conflict |
| `DeliveryRuns.ConflictOnlyRefuses` | scripts/news_pipeline/delivery.py:515-549 | the finalisation conflict is unreachable; a refusal writes nothing |
| `DeliveryRuns.LiveAttemptsAreAskedFor` | scripts/news_pipeline/delivery.py:420-424 | live attempts never exceed one plus the explicit live retries |
| `Summarizer.SummarizerSession.SummarizeCategory` | scripts/news_pipeline/briefing_summarizer.py:1023-1264 | bounds, cap of 32, request size, cache, budget and dispatch in the code's order |
| `Summarizer.ParseRows` | scripts/news_pipeline/briefing_summarizer.py:862-898 | accepts exactly the requested ids in order with sound summaries |
| `SummarizerRuns.EveryReplyIsSound` | scripts/news_pipeline/briefing_summarizer.py:415-475 | in every run each result lists the raw inputs one for one, passes all result checks, and is never a cache mismatch |
| `SummarizerRuns.BudgetHolds` | scripts/news_pipeline/briefing_summarizer.py:1169-1212 | at most one charged call per category, at most eight in all, the counter being the number of categories charged |
| `SummarizerRuns.ChargedIffAsked` | scripts/news_pipeline/briefing_summarizer.py:1195-1212 | a call is charged exactly when the transport was asked and did not leave by an unknown exception, which charges nothing |
| `SummarizerRuns.RefusedForBudgetIff` | scripts/news_pipeline/briefing_summarizer.py:1169-1212 | in every run a well-formed uncached request is refused for budget exactly when its category was charged before; so the first of each category always reaches the transport |
| `SummarizerRuns.AskedReplyShows` | scripts/news_pipeline/briefing_summarizer.py:1195-1264 | what an asked request shows for each sound input: its own row of an acceptable answer, else why it failed |
| `SummarizerRuns.KeptIffAmongFirst32` | scripts/news_pipeline/briefing_summarizer.py:909-924 | an input is asked about exactly when it is within all bounds and among the first 32 that are |
| `SummarizerRuns.FallbackShowsTheTitle` | scripts/news_pipeline/briefing_summarizer.py:926-949 | a fallback shows the item's own usable title, else a fixed text |
| `RequestText.RequestBytesAreCounted` | scripts/news_pipeline/briefing_summarizer.py:523-547 | the bytes compared with 65536 are the UTF-8 length of the canonical request |
| `SummarizerRuns.AnEscapedCallIsFree` | scripts/news_pipeline/briefing_summarizer.py:1195-1212 | a call that reaches the transport, raises and leaves the session as it was |
| `SummarizerRuns.SuccessIsServedFromCache` | scripts/news_pipeline/briefing_summarizer.py:1145-1167 | a request that succeeded is afterwards always served from the cache, same summaries, only the hit counter moving |
| `BrokerFraming.ParseHead` | host/news_egress_broker.py:1332-1358 | serves a POST /broker head with exactly one Content-Length in 1..limit and no Transfer-Encoding |
| `HeadTerms.HeadServedIff` | host/news_egress_broker.py:1332-1358 | a head is served with length n exactly when its first line is the request line, every other line has a colon, none is named transfer-encoding, exactly one content-length, that being 1 to 4300 ASCII digits with value n, and 1 <= n <= max |
| `HeadTerms.HeadBreaksIff` | host/news_egress_broker.py:1344-1347 | and exactly when the digits pass the test but not the conversion |
| `HeadTerms.FramedIff` | host/news_egress_broker.py:1309-1391 | so an envelope stands framed in a stream exactly when such a head ends at the first blank line and the envelope follows it |
| `BrokerFraming.ReadEnvelopeBytes` | host/news_egress_broker.py:1309-1391 | whatever pieces arrive: only the framed envelope is ever returned, and a stream that is exactly one framed request is read |
| `BrokerFraming.RequestIsFramed` | scripts/news_container/broker_client.py:121-138 | what the client prints is a framed request of its envelope and nothing else |
| `BrokerFraming.ReadUpstream` | host/news_egress_broker.py:1244-1287 | the upstream body cut at the limit, with status -1 exactly when something was cut off, for every chunking |
| `BrokerFraming.ParseResponse` | scripts/news_container/broker_client.py:141-170 | the header loop computes the parsed status, headers and body |
| `BrokerFraming.ResponseRoundTrip` | host/news_egress_broker.py:1531-1548 | the client recovers status, headers and body from what the broker prints |
| `BrokerFraming.ReceiveAll` | scripts/news_container/broker_client.py:193-235 | the client receives the whole stream, or fails exactly when it exceeds the bound, for every chunking |
| `BrokerFraming.Exchange` | host/news_egress_broker.py:1744-1809 | a whole request and response in pieces of any size: the envelope arrives and the answer comes back |
| `EventStore.EventDb.AppendEventVersions` | scripts/news_pipeline/event_store.py:780-838 | the batch loop and its transaction: all of it or nothing |
| `EventStore.EventDb.ReverifySourceItemClaims` | scripts/news_pipeline/event_store.py:428-498 | re-verifies each touched event's latest unverified version, or rolls everything back on a stale clock |
| `EventStore.EventDb.RegenerateReleaseClaim` | scripts/news_pipeline/event_store.py:606-640 | a new event with version 1; an existing event is an error |
| `EventStore.EventDb.ProcessPhase4` | scripts/news_pipeline/event_store.py:1018-1075 | the version-writing part of each decision, one transaction for all |
| `EventChain.ReachableLogsAreChained` | scripts/news_pipeline/event_store.py:448-487 | after any mix of the four writers versions are exactly 1..n, version k < n ends where k + 1 begins, only n is open |
| `EventChain.HistoryIsWriteOnce` | scripts/news_pipeline/event_store.py:780-822 | rows and links are never rewritten; a row changes only by being closed, once |
| `EventTerms.ReverificationPromotes` | scripts/news_pipeline/event_store.py:428-498 | a committed call gives a verified version, with the old summary and links, to exactly the events whose latest version was unverified, rested on an eligible claim and has only verifying claims; no other event changes, the count is theirs, and it raises exactly on a stale clock |
| `EventTerms.OneDecisionWrites` | scripts/news_pipeline/event_store.py:780-822 | when one appended decision raises, writes, or is left alone, and the version it writes |
| `EventTerms.RegenerationAdds` | scripts/news_pipeline/event_store.py:606-640 | an event on record is an error; a new one gets its claim and a verified version 1 |
| `EventTerms.OneFindingWrites` | scripts/news_pipeline/event_store.py:1018-1075 | what one finding does: left alone, refused, its claims added to the latest version, or the next version |
| `EventChain.RegenerateIsSound` | scripts/news_pipeline/event_store.py:617-627 | version 1 of a regenerated event collides with nothing |
| `EventChain.AppendingAgainWritesNothingIff` | scripts/news_pipeline/event_store.py:780-822 | appending a committed batch again writes and changes nothing if and only if its decisions that ask for a row of their own agree per event and those naming a version name the next one |
| `EventChain.UnnamedBatchRepeatsIff` | scripts/news_pipeline/event_store.py:780-822 | for a batch that names no version: if and only if those decisions agree, whatever the store |
| `EventChain.AppendingAgainWritesNothing` | scripts/news_pipeline/event_store.py:780-822 | in particular a batch with one decision per event that names no version |
| `EventChain.TwoDecisionsTakeTurns` | scripts/news_pipeline/event_store.py:780-822 | any two ordinary decisions about one event that ask for different rows: the batch is committed, and appending it again writes two more versions |
| `Filtering.PassesRecencyIff` | scripts/news_pipeline/filtering.py:114-165 | a candidate is recent enough exactly when its judged date lies between recency in the past and six hours ahead |
| `Filtering.EarlyDecides` | scripts/news_pipeline/filtering.py:178-218 | each obstacle before the batch comparison gives its decision and reason, and a candidate without one is stopped by its date alone |
| `Filtering.RecencyDecides` | scripts/news_pipeline/filtering.py:114-165 | which verdict a date gives: unreadable, missing, too far ahead, stale, or none |
| `FilterTerms.ResultReports` | scripts/news_pipeline/filtering.py:178-393 | whatever is decided, a candidate judged by its date reports its place in the batch, its source's tier and reason, and which date counted, from where, and how it stands |
| `Filtering.EvaluateCandidates` | scripts/news_pipeline/filtering.py:168-393 | the three dictionaries and the sticky flag compute, for each candidate, the quadratic reading of its predecessors |
| `Filtering.ConsultFindsWinner` | scripts/news_pipeline/filtering.py:219-228 | one lookup finds the first earlier candidate with the same key, under each category's own policy |
| `Filtering.MatchKeepsDicts` | scripts/news_pipeline/filtering.py:229-251 | a matched candidate need not be recorded |
| `Filtering.BatchMatchIffRival` | scripts/news_pipeline/filtering.py:168-245 | any candidate is a batch match exactly when it reached the batch stage and an earlier one had reached it with its key |
| `FilterTerms.BatchMatchReads` | scripts/news_pipeline/filtering.py:215-245 | that key spelled out: the same URL, across categories where the policy says so, or without URLs the same category and title |
| `Filtering.JudgedAgainstTheFirst` | scripts/news_pipeline/filtering.py:229-231 | it is judged against the first of them |
| `Filtering.ResultsIgnoreTheFuture` | scripts/news_pipeline/filtering.py:178-393 | no result depends on a later candidate |
| `Filtering.HistoryFailureIsSticky` | scripts/news_pipeline/filtering.py:267-285 | once the history has failed every later candidate that needs it is pending |
| `Filtering.HistoryDecides` | scripts/news_pipeline/filtering.py:267-393 | which decision, reason and match every answer of the history gives to a candidate that asks |
| `Filtering.UrlLessIsPending` | scripts/news_pipeline/filtering.py:248-262 | a first candidate without a URL lacks evidence |
| `SlotText.ShortOrder` | scripts/news_container/scheduler.py:297-304 | text order of the second-precision print is time order |
| `SlotText.ShortReadsBack` | scripts/news_container/scheduler.py:297-304 | the printed slot reads back |
| `Scheduler.ComputeDueSlots` | scripts/news_container/scheduler.py:205-270 | the sorted duplicate-free list of the due slots |
| `Scheduler.DueSlotsAre` | scripts/news_container/scheduler.py:205-270 | helper: a slot is due exactly when it prints a matching whole minute of the closed interval |
| `SlotTerms.DueMeansNamed` | scripts/news_container/scheduler.py:205-270 | a slot is due exactly when the local clock, printed at a whole minute of the closed interval, shows a date, hour and minute that an enabled block of its kind names |
| `SlotTerms.WeekdaysFollow` | scripts/news_container/scheduler.py:239-246 | helper: those weekdays count from a Monday and move on by one with the date |
| `Scheduler.EveryBlockComesRound` | scripts/news_container/scheduler.py:273-294 | every enabled well-formed block matches some minute of the next seven days |
| `Scheduler.NextDueSlot` | scripts/news_container/scheduler.py:273-294 | the least slot strictly after now over all time, and there is one exactly when some block is enabled |
| `Sweeps.OwnerPays` | scripts/news_container/scheduler.py:345-370 | with agreeing blocks a slot's payload is its owner's, whichever owner is asked |
| `Sweeps.PayloadIff` | scripts/news_container/scheduler.py:345-370 | a slot has a payload exactly when some matching block of its kind carries it and every such block carries the same |
| `Sweeps.EnqueueDueSlots` | scripts/news_container/scheduler.py:312-342 | the sweep enqueues slot by slot and stops at the first refusal |
| `Sweeps.OneSweep` | scripts/news_container/scheduler.py:312-342 | an uninterrupted sweep never stops early, reports each due slot once and created exactly when it was not there, and adds those tasks only |
| `Sweeps.EachSlotIsCreatedOnce` | scripts/news_container/scheduler.py:312-342 | any number of sweeps interleaved enqueue by enqueue, with each other and with anybody else, from any store that agrees with the schedule: none raises; a slot's task stands iff it did at the start or some sweep came to it; it is reported created exactly once if new, else never |
| `Sweeps.OverlappingSweepsMakeTheUnion` | scripts/news_container/scheduler.py:312-342 | once all have finished, what stands is the start and the union of the due slots, each new one created by exactly one row of one sweep |
| `Sweeps.UninterruptedSweep` | scripts/news_container/scheduler.py:327-341 | a sweep nobody interrupts is the sweep the method computes |

## Left out

- SQLite itself, write-ahead logging, busy timeouts, schema migrations: a transaction commits or leaves everything as it was.
- UtcText.PrintOrder: covers years 1000 to 9999, the instants the fixed-width print keeps at one length.
- ControlStore.ControlDb.Enqueue: does not model the delivery-vocabulary scrub of payloads or the ISO syntax of a due slot, because they only refuse; of the slot it keeps that it ends in Z and that no bar follows a Z.
- ControlStore.ControlDb.Retry: does not fix the closed category set or the derivation of an investigation's id from its candidate, because both are validators of one payload.
- Worker.RunWorker: does not model the dispatched kinds, file locks or the renewal thread; what they do to the store is an arbitrary sequence of operations by others.
- ControlStore.ControlDb.SelectableTasks: breaks ties between equal due slots by the identity text, where the store compares its digest.
- IngestLease.IngestDb.Persist: models the lease check and the write it guards, not the article filter in front of it.
- BriefingLedger.LedgerDb.CompleteRun: takes payloads as canonical text; payload canonicalisation, id and timestamp validators are left to the caller.
- Rendering.RenderBriefing: takes records that passed the validators and display normalisation; both are in BriefingEngine.BuildRecords.
- BriefingEngine.ExecuteBriefingRun: models the subject-capable path, not the legacy path that groups by category, takes the summariser as any function of its request, and what the library's URL parser says as a field of the input; type and timestamp-syntax checks are left out.
- EngineTerms.ItemIsPrinted: takes the date, the reason codes and the kinds and gates of facts as single lines of the program's own, the codes not empty.
- MorningWindow.WindowShape: takes local 08:00 of each date as a strictly increasing instant, so no daylight-saving arithmetic is modelled.
- EngineRuns.NoIdentityIsRenderedTwice: speaks of runs executed one at a time and of results that came back; a run that raised after its completion committed rendered nothing to a caller.
- Delivery.ReportDb.DeliverReport: models one report's rows and calls made one at a time, not two deliveries racing; the artifact checks are one flag and the transport's answer is one fate per part.
- Summarizer.SummarizerSession.SummarizeCategory: takes JSON decoding of the response as given, the checks on decoded rows being modelled, and the run lemmas start from an empty cache.
- `summarize_subject`, which has its own request form, is left out.
- BrokerFraming.ReadEnvelopeBytes: says nothing of acceptance when the head ends within the last four bytes of the 8 KiB bound, where it depends on the pieces (the client's head is under 400 bytes); deadlines and socket errors are one kind of failure that may strike at any read of a faulty connection.
- EventStore.EventDb.ReverifySourceItemClaims: takes which claims verify as a parameter, as do the other writers, because the evidence rules live in modules not modelled.
- EventStore.EventDb.ProcessPhase4: models the writing of versions and links; event dates, claim extraction and query plans are left out.
- Filtering.EvaluateCandidates: takes URL canonicalisation, text normalisation, where the source rules list a host, and history answers as fields, and omits the identity lookup, which the code never reaches because its key is always absent.
- Scheduler.ComputeDueSlots: uses a zone with a fixed offset; schedule parsing is left out and appears as the well-formedness of a block.
- SlotTerms.DueMeansNamed: speaks of local times from the year 1000 on, where its calendar starts.
- Sweeps.EachSlotIsCreatedOnce: excludes investigations, whose payload names its own task, and schedules whose blocks disagree on a payload, which the code refuses.
- Nothing is claimed about the scheduler's recurring loop, which sweeps with horizon 0.
- Response envelopes (`BrokerResponse.to_dict`, `decode_response_envelope`) are field checks and are left out.
- Sockets, TLS, DNS, real sleeping, command lines, logging, container images and health checks.
- Regular-expression code (fact extraction, reliability, publication safety) lies inside a library.
