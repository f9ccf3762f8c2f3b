# Autotask MCP server: verified models of its stateful protocols

A Dafny 4.11 project beside the server. `dafny verify dfyconfig.toml` checks all of it. Each part models one
protocol of the repository with its own branches, constants and error paths, and proves what the protocol is for,
over every input, every run or every interleaving.

## What is modelled

**The Postgres mirror.** `Autotask.dfy` is Autotask as the mirror sees it: tables of stamped rows that other people
insert into, update and delete from at any moment, read 500 rows at a time by ascending id. `ShadowStore.dfy` and
`ShadowSync.dfy` are the mirror's tables and the sync engine, loop for loop; `MirrorTheory.dfy` holds the invariants
and why one call keeps them; `MirrorLimits.dfy` shows that the two-minute overlap is exactly what a walk may last.
Between any two Autotask calls of a run the timeline may contain any number of changes.
Assumptions: ids are at least 1 and only grow; a change stamps its row at the moment it happens; an incremental walk
lasts no longer than the overlap by Autotask's clock (`Paced`); the local clock is not ahead of Autotask's by more
than the overlap.

**Reads from the mirror.** `ShadowSql.dfy` compiles Autotask filters to a SQL condition with numbered placeholders,
read in three-valued logic, and proves it means what the filter says; `Like.dfy` is PostgreSQL's LIKE (section 9.7.1
of the PostgreSQL manual); `MirrorReads.dfy` proves that a query answered from a windowed mirror is the answer the
paginated walk over Autotask gives. Assumptions: the mirror holds every row of its window and is current on the rows
it holds; the accepted filter is a plain bound (below); dates are texts that are no numbers, and the status number 5 is written `5`.

**The login-protection breaker.** `AuthBreaker.dfy` has the functions and the class for one request's pieces, and a
state machine that interleaves any number of concurrent requests of a tenant, restarts included.
Assumptions: fixed credentials and no administrator clear; every answer is a 401; a test call is answered within the
probe window and a check within the provisional pause; the zone does not change; saving a pause does not fail.

**Change plans.** `ChangePlans.dfy` and `PlanStore.dfy` are the rows, the store and the executor under arbitrary
answers from Autotask; `Reverts.dfy` compiles the undo plan and proves what it restores of the fields, `Adjustments.dfy`
of the units of contract lines; `OrderPlans.dfy` builds an order's plan. Assumptions: values compare exactly (with the empty text as null); one execution at a time; the hooks
after a write do not throw.

**The activity feed.** `ActivityFeed.dfy` is the ticket source: scan, histories oldest change first, watermark;
`AuditLedger.dfy` is the append-only event table and its cursor reader. Assumptions: the local clock is not ahead of
Autotask's, the blur of a scan is within the overlap (`Sharp`), event ids follow commit order.

**Idempotency keys.** `OperationStore.dfy` has the SQL statements, the claim as a retry loop over them, and a machine
that interleaves any number of claimers and finishers statement by statement.

**Bulk jobs.** `BulkJobs.dfy` and `BulkWorker.dfy` are the item queue, the approved hash, the canary, the pace and the
operator's actions, with atomic ticks; `Prepare.dfy` is the preparation of a placeholder cleanup. The hash is taken to
be injective; the local day and hour of an instant are inputs.

Five properties one would expect turn out to hold only under a condition, and the project gives it:

- Undoing an applied adjustment restores its line only if its counter is not found stale. A row that topped up a line in
  use kept no before-image (`Adjustments.TopUpStale`), and of two adjustments of one line the first one's counter does
  not reckon with the second, still in effect the day before (`Adjustments.StackedStale`). `Adjustments.CountersRun`
  proves that a revert run creates every counter if and only if every undone row's before-image is its line's units
  on the day before its counter, the plan's other rows and the counters already run included, and no line shows the
  restored units by itself, whichever rows are selected for the undo; `Adjustments.UnitsRestored` proves that the units
  are then as if the plan had made only the adjustments that were not undone.
- An order bills what its quote showed only as long as no delivered one-time line's offering brings a `charge` with its
  own quantity, price or billing flag: `buildOrderPlan` merges it over the quoted ones (`OrderPlans.OwnPriceBills`).
  `OrderPlans.ChargeExactly` says for each line when the charge comes to what was quoted, and
  `OrderPlans.BuildOrderPlan` proves what the plan bills for every order, which is the quoted total when no such
  offering overrides those fields.
- The bound on checks and test calls holds as long as each is answered and no restart falls into it: a restart forgets a
  test call that is out, and the check of a first 401 altogether. `AuthBreakers.BoundedTests` counts both, and
  `AuthBreakers.RestartsForget` and `AuthBreakers.RestartsRepeat` show they are real.
- A query that `windowCovers` accepts may leave the window: a bound given as a user-defined field of the same name,
  and "status is not 5" asked with a value other than the number 5 or the text "5" (such as "5.0" or [5]).
  `MirrorReads.BoundExactly` proves, for every accepted filter, that it keeps a query in the window if and only if it
  is neither.
- "Every ticket last changed before the watermark has been read" fails by the blur of a scan: a change made behind the
  cursor while the walk is under way, or not yet copied into a mirror up to thirty minutes old. It holds when the scan
  showed nothing newer than its start, such as a live one during which nobody changed a ticket; otherwise the missed change is due for the next
  scan as long as the blur is within the fifteen-minute overlap (`ActivityFeeds.ActivityFeed.Ingest`), and a longer blur
  loses it for good (`ActivityFeeds.BlurredScan`).

## Model

| member | source | states |
|---|---|---|
| Autotask.RunMoves | src/db/shadow-entities.ts:1-3 | any run of inserts, updates, deletes and clock ticks between two calls is covered by the one relation every proof uses: rows unchanged, or new or changed with a stamp at or after the earlier clock |
| Autotask.PageOf | src/db/shadow-sync.ts:123-127 | one query returns at most 500 rows, each above the cursor, passing the filter and as Autotask has it |
| Autotask.PageComplete | src/db/shadow-sync.ts:188-191 | a page leaves nothing behind: every matching row up to the new cursor is on it, and every matching row when it is short |
| Autotask.CursorAfter | src/db/shadow-sync.ts:190 | the cursor never goes back, lands on the page's highest id, and stays put on an empty page |
| ShadowStores.ShadowTable.Upsert | src/db/shadow-store.ts:119-139 | copied rows are stored as read and revived when they were marked deleted; no other row changes |
| ShadowStores.ShadowTable.MarkDeleted | src/db/shadow-store.ts:142-146 | exactly the given rows lose their live mark, and the count is the number that were live |
| ShadowStores.ShadowTable.MaxId | src/db/shadow-store.ts:78-81 | the highest mirrored id, deleted rows included; 0 when there is none |
| MirrorTheory.InSyncStable | src/db/shadow-entities.ts:126-127 | whatever other people change between two calls, every row stays mirrored as it is, due for the next incremental walk, or ahead of the backfill cursor |
| MirrorTheory.BackfillCall | src/db/shadow-sync.ts:187-193 | a backfill page, read after any changes, loses no update: the cursor may move to its end and a short page may finish the backfill |
| MirrorTheory.BackfillStart | src/db/shadow-sync.ts:178-184 | stamping the watermark and fixing the window before anything is read makes every row ahead of the cursor accounted for |
| MirrorTheory.WalkCall | src/db/shadow-sync.ts:205-211 | a page of an id-ordered incremental walk keeps its invariant: below the cursor a row is mirrored as it is or changed since the walk began, above it mirrored or still due |
| MirrorTheory.WalkDone | src/db/shadow-sync.ts:212-213 | after a whole walk no longer than the overlap the watermark may move to the newest stamp seen, and no update is lost |
| MirrorTheory.FullEnd | src/db/shadow-sync.ts:280-281 | after a whole unfiltered walk, marking what it did not see marks only rows that are gone from Autotask, and the live rows are exactly those seen |
| MirrorTheory.RangeEnd | src/db/shadow-sync.ts:256-258 | after re-reading a range whole, every row that stayed in it is copied and no other live row of the range is left |
| MirrorTheory.ChunkCall | src/db/shadow-sync.ts:315-321 | re-reading at most 500 given ids leaves each mirrored as Autotask had it at that call, or not live when Autotask had none |
| MirrorTheory.Convergence | src/db/shadow-sync.ts:198-215 | once Autotask stops changing, a whole incremental walk and then a whole id walk leave the live rows of an unwindowed entity equal to Autotask's |
| MirrorTheory.Newest | src/db/shadow-sync.ts:208 | the newest stamp on a page: at least the base, attained, and no stamp on the page is above it |
| MirrorLimits.LongWalkLosesAnUpdate | src/db/shadow-entities.ts:127 | for any duration above the overlap there is a legal two-page walk of that duration, in step at its start, after which a row is neither mirrored as it is nor due again |
| ShadowSyncs.ShadowSync.Page | src/db/shadow-sync.ts:123-127 | one call, counted whether or not it answers, seeing Autotask as it is at that call |
| ShadowSyncs.ShadowSync.Backfill | src/db/shadow-sync.ts:176-196 | resumable first load: within the budget, never moving the cursor back, losing no update however it is cut or fails |
| ShadowSyncs.ShadowSync.ReadChanged | src/db/shadow-sync.ts:200-211 | the incremental walk itself, cut by the budget or a failure anywhere |
| ShadowSyncs.ShadowSync.Incremental | src/db/shadow-sync.ts:198-215 | within the budget; the watermark moves only when every changed row was read; no update is lost when the walk was no longer than the overlap, and nothing is marked deleted wrongly |
| ShadowSyncs.ShadowSync.FullRefresh | src/db/shadow-sync.ts:266-283 | a complete refresh leaves exactly the rows it saw live, each as read during the walk; a row marked deleted is gone from Autotask; skipped before its time |
| ShadowSyncs.ShadowSync.Reconcile | src/db/shadow-sync.ts:286-308 | a complete id walk marks deleted exactly the live rows it did not see, all of them gone from Autotask; the run's own budget is put back |
| ShadowSyncs.ShadowSync.RefreshIds | src/db/shadow-sync.ts:311-323 | whatever the budget, one call per 500 ids; every id ends mirrored as Autotask had it at some call of the refresh, or not live |
| ShadowSyncs.ShadowSync.ReadNew | src/db/shadow-sync.ts:226-234 | when complete, every Autotask row above the highest mirrored id is in the mirror |
| ShadowSyncs.ShadowSync.WindowRefresh | src/db/shadow-sync.ts:223-264 | within the budget; a refresh runs only when due, and after it rows that stayed in the range for the whole walk are copied and no other row of the range is live |
| ShadowSyncs.ShadowSync.SyncAndSweep | src/db/shadow-runtime.ts:149-165 | while Autotask stays as it is, a complete incremental run and a complete sweep leave the live rows of an unwindowed entity exactly Autotask's |
| ShadowSyncs.ShadowSync.Effective | src/db/shadow-sync.ts:93-115 | one field-list call per entity and process; an entity whose fields are missing or whose list cannot be read gets no turn |
| ShadowSyncs.ShadowSync.SyncEntity | src/db/shadow-sync.ts:165-174 | one entity's turn, by how the entity stays fresh, loses no update when none was lost before and its walk was paced, and never marks a present row deleted outside window mode, paced or not |
| ShadowSyncs.ShadowSync.RefreshDirty | src/db/shadow-sync.ts:141-144 | written rows are re-read first within one call per 500 of them, and no mark is left |
| ShadowSyncs.ShadowSync.RunOnce | src/db/shadow-sync.ts:130-163 | a run makes at most max(budget, calls the written rows need) calls over all entities and modes; every entity that had lost no update and whose walk was paced loses none, and deletions are sound outside window mode; nothing happens when calls are held or usage is high |
| ShadowSyncs.ShadowSync.Run | src/db/shadow-runtime.ts:149-165 | over any rounds of sync runs and nightly sweeps, with any changes by other people and any writes of the MCP during and between them: every entity all of whose walks were paced is in step at the end, whatever befell the others, and outside window mode no row Autotask still has was marked deleted since the first round |
| Like.Literal | src/db/shadow-sql.ts:16 | an escaped text in a pattern accepts exactly itself in any case, and leaves the rest of the text to the rest of the pattern |
| Like.Wild | src/db/shadow-sql.ts:64-66 | a leading % accepts whatever the rest of the pattern accepts after skipping any part of the text |
| Like.LikeStart | src/db/shadow-sql.ts:64 | for every text s, escape(s)% accepts exactly the texts that start with s, ignoring case, backslash, % and _ included |
| Like.LikeEnd | src/db/shadow-sql.ts:65 | %escape(s) accepts exactly the texts that end with s, ignoring case |
| Like.LikeInside | src/db/shadow-sql.ts:66 | %escape(s)% accepts exactly the texts that contain s, ignoring case |
| ShadowSql.LaterParams | src/db/shadow-sql.ts:18-21 | binding more values later never changes what a compiled condition's placeholders denote |
| ShadowSql.Compiles | src/db/shadow-sql.ts:39-76 | a filter compiles exactly when every leaf has a known operator and a well-formed name; a bad one anywhere rejects it all |
| ShadowSql.FieldLeaf | src/db/shadow-sql.ts:50-61 | equality and its negation on a field: text in any case, numbers and booleans by JSON containment, null by absence, negations true of missing fields |
| ShadowSql.TextLeaf | src/db/shadow-sql.ts:57-74 | order, pattern, existence and list operators select exactly what they ask for, a row without the field matching only the negations; refused exactly when text that is no number is compared with a number |
| ShadowSql.UdfLeaf | src/db/shadow-sql.ts:79-101 | the same on user-defined fields, where a number comparison is guarded and never refused |
| ShadowSql.FilterMeaning | src/db/shadow-sql.ts:39-76 | a nested filter's SQL is never unbound or mistyped, is refused exactly when a cast is unsafe, and is otherwise true of a row exactly when the filter matches it in two-valued logic |
| ShadowSql.WhereMeaning | src/db/shadow-sql.ts:104-106 | the same for the AND of a top-level list, whatever is bound before and after it |
| ShadowSql.SqlBuilder.Bind | src/db/shadow-sql.ts:18-21 | the n-th bound value is placeholder n |
| ShadowSql.SqlBuilder.FilterToSql | src/db/shadow-sql.ts:39-76 | the recursive, parameter-pushing compiler yields the specified condition and parameters, or rejects |
| ShadowSql.SqlBuilder.WhereClause | src/db/shadow-sql.ts:104-106 | the clause of a list, its parts in order over one list of parameters |
| MirrorReads.WindowMeans | src/db/shadow-entities.ts:55-66 | the window filter holds of a row exactly when one of its dates is on or after the day or, for tickets, it is not complete |
| MirrorReads.BoundKeeps | src/db/shadow-entities.ts:49-60 | a row that matches a plain bound is in the window |
| MirrorReads.BoundExactly | src/db/shadow-entities.ts:49-60 | a filter windowCovers accepts keeps every matching row in the window if and only if it is on the row's own field and asks "not 5" with the number 5 or the text "5" |
| MirrorReads.SameListing | src/db/shadow-runtime.ts:302-309 | a covered query lists the same rows, in the same order, from the mirror as from Autotask |
| MirrorReads.StoreQuery | src/db/shadow-store.ts:193-207 | the first limit live rows by id that match; nothing exactly when a filter has no SQL or a cast is refused |
| MirrorReads.ShadowRead | src/db/shadow-runtime.ts:289-314 | an answer is given only when the mirror is available and the window check accepts the filters, and is then the first limit matching mirrored rows |
| MirrorReads.Walk | src/services/autotask-http.ts:907-927 | the walk over nextPageUrl returns the first cap matching rows |
| MirrorReads.Query | src/services/autotask-http.ts:889-928 | the walk gives the first cap matching rows as Autotask has them; an answer from the mirror is the same rows unless the query was accepted on a bound that is no plain one, where it is still the mirror's first cap matching rows |
| MirrorReads.RawQuery | src/services/autotask-http.ts:791-802 | a raw query gets Autotask's own first page, with the same exception; it comes from the mirror only when the mirror holds the whole result, asked for with one extra row |
| AuthBreakers.SaveRestore | src/services/autotask-http.ts:354-368 | save and restore keep a settled block whole, a hold included, except that nobody waits for a test call any more |
| AuthBreakers.AuthBreaker.Enter | src/services/autotask-http.ts:557-579 | the gate: a block for other credentials is dropped, a pause or a test call under way refuses, else the request goes through, as the one test call when there is a block; other tenants are untouched |
| AuthBreakers.AuthBreaker.Answered401 | src/services/autotask-http.ts:673-680 | a 401 under somebody else's block is ignored; the first one sets a provisional block at once; a test call's is the verdict |
| AuthBreakers.AuthBreaker.Judge | src/services/autotask-http.ts:370-384 | a confirmed rejection pauses, lengthens or holds and is saved, without escalating for requests sent before the pause; an unconfirmed one lifts only a provisional block |
| AuthBreakers.AuthBreaker.Succeeded | src/services/autotask-http.ts:719-721 | a success ends the block it was testing, or a provisional one |
| AuthBreakers.AuthBreaker.Clear | src/services/autotask-http.ts:396-401 | an administrator's retry removes the tenant's block and its saved copy |
| AuthBreakers.AnyStep | src/services/autotask-http.ts:557-721 | since the first 401, no step of any interleaving (arrivals, drops, sends, losses, answers, checks, restarts other than one that forgets the check) adds to what may still be sent or refused, and a hold lasts |
| AuthBreakers.TrustingStep | src/services/autotask-http.ts:557-579 | until the first 401 is answered no event sets a block or turns a request into a test call or a check |
| AuthBreakers.FirstAnswer | src/services/autotask-http.ts:673-695 | the first processed 401 leaves the requests already past the gate, one check and the allowed test calls |
| AuthBreakers.BoundedLogins | src/services/autotask-http.ts:354-383 | after the first 401, over any run with any number of requests and restarts in which no restart forgot the check, at most the requests already past the gate, one check and AUTOTASK_AUTH_MAX_PROBES test calls are sent (one more per test call whose answer never came), and the 401 answers are bounded whatever is lost |
| AuthBreakers.CheckForgotten | src/services/autotask-http.ts:364-368 | a restart while the first 401 is being checked leaves the tenant as before it, for nothing provisional is saved |
| AuthBreakers.BoundedTests | src/services/autotask-http.ts:354-383 | over any run at all, restarts at any moment, at most one check and AUTOTASK_AUTH_MAX_PROBES test calls are made, one more per test call whose answer never came and one more per restart that forgot the check |
| AuthBreakers.HeldForever | src/services/autotask-http.ts:557-579 | a held tenant stays held over any run, restarts at any moment included (a held block is saved, and nothing is being checked), and only requests already past the gate are ever sent |
| AuthBreakers.LastProbeHolds | src/services/autotask-http.ts:370-384 | a refused test call counts one failure, holds exactly when the allowed ones are used up, and otherwise pauses twice as long, up to an hour |
| AuthBreakers.RestartsForget | src/services/autotask-http.ts:354-368 | a saved block does not say that a test call is out: for every n, n restarts while one is out let n test calls be sent although one is allowed |
| AuthBreakers.RestartsRepeat | src/services/autotask-http.ts:364-368 | for every n, n restarts while the first 401 is being checked let n first 401s and n checks happen |
| ChangePlans.RowMeaning | src/change-plans/execute.ts:109-150 | a row writes if and only if its record reads afresh as the plan saw it and (create) nothing is there yet or (update) it has a target; it writes its own fields to its own target; what each status stands for |
| ChangePlans.OnlyOnce | src/change-plans/execute.ts:117-119 | when a retried create finds the record it made before, no create row makes two records |
| ChangePlans.ReadyStable | src/change-plans/execute.ts:84-101 | a row that is ready stays ready, with the same references filled in, whatever else is executed |
| ChangePlans.FewerToRun | src/change-plans/execute.ts:80 | on a good day an execution finishes as many approved rows as it takes, whether or not they stand for an id |
| PlanStores.PlanStore.constructor | src/change-plans/store.ts:50-72 | a new plan is open, with nothing approved and information rows done with |
| PlanStores.PlanStore.SetApproval | src/change-plans/store.ts:88-107 | only an open plan with the right hash changes; exactly the listed rows that are pending, approved, excluded or failed and neither blocked nor informational change; applied, skipped and stale are absorbing |
| PlanStores.PlanStore.Execute | src/change-plans/execute.ts:74-156 | whatever Autotask answers, every write is an approved, unblocked, non-manual row's, once, read afresh, with its dependencies and references applied or skipped and its reference fields carrying those rows' ids; applied, skipped and stale rows stay; every row is counted under its outcome |
| PlanStores.PlanStore.Run | src/change-plans/execute.ts:74-156 | over any run of approvals and executions every write ever sent is lawful: of a row that was approved, not blocked and no person's step, its record read as planned by the answers of the execution that sent it, its dependencies in and its references filled with their ids; finished rows stay, and no create row makes two records as long as every execution finds the records made before it |
| PlanStores.PlanStore.Finish | src/change-plans/execute.ts:80-107 | n approved rows that depend only on earlier rows done or approved, and each succeed, are finished in n / k executions of k rows, rounded up, each applied or skipped; only rows that others refer to need an id, so contract adjustments, created without one, finish too; no other row changes |
| Reverts.BuildRevertRows | src/change-plans/revert.ts:21-83 | one undo row per applied row that has one, last row first; the rest reported; undoing a row depends on undoing exactly the rows that depended on it; backward in, backward out |
| Reverts.UndoOne | src/change-plans/revert.ts:62-66 | running the undo of an applied update, its fields as the plan left them, is applied and puts each of them back as it read |
| Reverts.UndoRestores | src/change-plans/revert.ts:62-66 | however much of a plan is undone and whatever its other rows did, as long as nothing else touched the fields of an update after it, the update's undo is applied in the revert's run and its fields read as before it |
| Reverts.AllRestored | src/change-plans/revert.ts:62-66 | after that run every field that only the undone updates touched reads as before the plan |
| Reverts.RevertRunsSmoothly | src/change-plans/revert.ts:71-81 | a revert of updates, approved, is one the executor finishes |
| Adjustments.CounterIs | src/change-plans/revert.ts:30-54 | an adjustment's undo takes the same units back on the same line, from a day that is never before the original's, and expects the units the plan saw plus the row's own change if it is in effect the day before |
| Adjustments.TurnIs | src/change-plans/execute.ts:111-129 | a counter is stale exactly when its line does not show, the day before, what it expects; else skipped when the line shows the restored units by itself, else created, and applied exactly when it reads back as planned |
| Adjustments.RunExists | src/change-plans/execute.ts:84-86 | every revert plan has a run of its counters in order with nobody interfering |
| Adjustments.LinesAt | src/change-plans/revert.ts:26-54 | while every counter is created, each line shows at every turn its own units, the changes of the rows before, and what the later ones leave, undone or not |
| Adjustments.CounterTurn | src/change-plans/execute.ts:111-129 | whichever rows are undone, at its turn a counter is fresh if and only if its row's before-image is its line's units the day before it takes effect, the plan's other rows (undone so far or not at all) included; and how it ends otherwise |
| Adjustments.CountersFresh | src/change-plans/execute.ts:111-114 | where no line shows the restored units by itself, every counter of the run is fresh if and only if every undone row's image fits |
| Adjustments.CountersRun | src/change-plans/execute.ts:108-121 | for any selection of rows, every counter of the run is created if and only if every undone row's image fits and no line shows the restored units by itself |
| Adjustments.UnitsRestored | src/change-plans/revert.ts:30-54 | under that condition, after the run every line's units are, from the day its counters are in, as if only the adjustments that are not undone had been made (as before the plan when all are undone), and before that off by exactly the changes already in effect |
| Adjustments.CountersRunSmoothly | src/change-plans/revert.ts:71-81 | if they also read back as planned, the revert of adjustments, approved, is one the executor finishes, whatever id their creates answer, none included |
| Adjustments.UndoRunsSmoothly | src/change-plans/revert.ts:21-83 | the revert of any selection of updates, created services and adjustments of one plan, approved, is one the executor finishes, under the conditions on each kind and whatever id the adjustments' creates answer, none included |
| Adjustments.TopUpStale | src/vendors/contract-plan.ts:239-240 | a row that added units to a line in use keeps no image: its counter is stale for every units, change and revert date |
| Adjustments.StackedStale | src/change-plans/revert.ts:41-44 | of two adjustments of one line, the second planned on the first, the first one's counter is stale, and the line stays off by its change |
| OrderPlans.AddPeople | src/commerce/model.ts:143-158 | the company row when it is new, then a row per contact in order, the first one marked as the primary contact, and the number of its row (none without contacts) |
| OrderPlans.BuildOrderPlan | src/commerce/model.ts:132-195 | every reference points to a strictly earlier row that creates the right entity, no row lacks its company, contract or ticket, and the rows bill exactly the quoted recurring lines and what the delivered one-time lines charge, which is the quoted total when no offering overrides quantity, price or billing of its charge |
| OrderPlans.OrderRunsSmoothly | src/change-plans/execute.ts:84-135 | an order plan with nothing blocked, approved, is one the executor finishes when Autotask takes its rows, with an id for each but the contract adjustments |
| OrderPlans.ChargeExactly | src/commerce/model.ts:188-191 | a charge bills what was quoted if and only if its effective quantity and price (the offering's where given, else the quoted ones) multiply to it, or nothing was quoted when the offering makes it unbillable or no number |
| OrderPlans.OwnPriceBills | src/commerce/model.ts:188-191 | a one-time offering with a unit price of its own bills that one: another amount than was quoted whenever the price differs |
| AuditLedgers.InsertedDistinct | src/db/audit-ledger.ts:21-43 | inserting a batch leaves no duplicate key and every key of the batch stored |
| AuditLedgers.InsertAgain | src/db/audit-ledger.ts:21-43 | inserting known events again changes nothing |
| AuditLedgers.Ledger.Insert | src/db/audit-ledger.ts:21-43 | append-only and idempotent on the key; the count is the number added |
| AuditLedgers.Ledger.FeedPage | src/db/audit-ledger.ts:72-92 | a reader served so far up to the cursor, whatever was inserted since, is now served everything asked for up to the next cursor, or to the end when nothing more is stored; more says exactly whether something is left, and only a full page leaves it |
| AuditLedgers.PageContinues | src/db/audit-ledger.ts:72-92 | a reader never skips an event and never sees one twice, whatever is inserted between pages |
| ActivityFeeds.FeedStable | src/db/activity-feed.ts:29-30 | whatever other people change between ingests, every ticket last changed since coveredFrom stays read after that change or due for the next scan |
| ActivityFeeds.ScanPage | src/db/activity-feed.ts:126-135 | a page of the scan keeps its invariant: every ticket up to the cursor whose change it asks for is shown as it last changed, or changed after the scan began |
| ActivityFeeds.InOrderSorted | src/db/activity-feed.ts:223-226 | the candidates are every ticket found, once, oldest change first and then by id |
| ActivityFeeds.NextCovered | src/db/activity-feed.ts:245-250 | moving the watermark to the first unread candidate's change, or past the last one's, leaves nothing unread behind it (less the overlap) |
| ActivityFeeds.NextFullyCovered | src/db/activity-feed.ts:245-250 | after a scan that showed nothing newer than its own start, every ticket last changed in [coveredFrom, watermark) has had its history read after that change |
| ActivityFeeds.NextStaysCovered | src/db/activity-feed.ts:245-250 | such a scan also keeps full coverage where it held before, even when its start lies behind the watermark |
| ActivityFeeds.PromiseLasts | src/db/activity-feed.ts:93-97 | that promise lasts between ingests, whatever other people change and whatever else is read |
| ActivityFeeds.BlurredScan | src/db/activity-feed.ts:30-34 | a scan that misses a change made as it began and shows one d later moves the watermark past an unread change, for every d > 0; that change is due again if and only if d is within the fifteen-minute overlap |
| ActivityFeeds.ActivityFeed.Scan | src/db/activity-feed.ts:115-136 | the budgeted live scan: when complete it has shown every ticket changed since its start point, or the ticket changed after the scan began |
| ActivityFeeds.ActivityFeed.ReadHistories | src/db/activity-feed.ts:232-244 | histories are read in order until the budget is spent; everything before the stop was read after its last change |
| ActivityFeeds.ActivityFeed.Ingest | src/db/activity-feed.ts:84-256 | over any budget, cut, failure and backfill request, every ticket last changed since coveredFrom stays read or due when the scan's blur is within the overlap; every ticket last changed in [coveredFrom, watermark) is read when the scan showed nothing newer than its start, as it does when nobody changed a ticket during a live scan, provided it was so before or nothing was missed and the watermark was not past the scan's start, and a cut or failed ingest keeps that promise; a failed ingest keeps its checkpoint; a finished one leaves nothing unread that changed before its scan; the ledger only grows, without duplicates |
| ActivityFeeds.ActivityFeed.Run | src/db/activity-feed.ts:84-256 | over any ingests, live or from the mirror, with any changes by other people during and between them: every ticket last changed since coveredFrom is read or due as long as the blur of the scans that finished was within the overlap, and every one last changed in [coveredFrom, watermark) is read as long as those scans showed nothing newer than their start; the ledger only grows, without duplicates |
| OperationStores.OperationStore.InsertIfAbsent | src/db/operation-store.ts:79-87 | inserts a running row unless the key is taken |
| OperationStores.OperationStore.Release | src/db/operation-store.ts:89-92 | deletes the given row only while it is a failed one |
| OperationStores.OperationStore.Finish | src/db/operation-store.ts:104-113 | records an outcome on the call's own row, or inserts it when it was not claimed |
| OperationStores.OperationStore.ClaimKey | src/db/operation-store.ts:77-101 | undisturbed, a claim never gives up: a free or failed key is claimed, any other answered from its row |
| OperationStores.StepRows | src/db/operation-store.ts:77-112 | in any interleaving only a failed row is ever removed, and only its own call ever changes a row |
| OperationStores.StepInv | src/db/operation-store.ts:77-112 | every statement keeps the books: no row before a claim, a running row while the call runs, its outcome after it ended |
| OperationStores.AtMostOneRuns | src/db/operation-store.ts:72-77 | in every interleaving at most one call of a key is running |
| OperationStores.AtMostOneSettles | src/db/operation-store.ts:72-77 | at most one call of a key ever ends well or half-way |
| OperationStores.NeverAgain | src/db/operation-store.ts:94-98 | a key whose call ended well or half-way is never claimed again over any run, and its row never changes |
| OperationStores.NotClaimed | src/db/operation-store.ts:79-98 | while a key's row is running, ended well or half-way, no statement lets another call of the key run |
| OperationStores.ReplayTells | src/db/operation-store.ts:95-96 | a replay is the stored result of the same key, tool and payload, and still is at the end of any run |
| BulkJobs.HashStays | src/bulk/store.ts:107-109 | progress never changes the hash of a job's items |
| BulkJobs.Pacing | src/bulk/worker.ts:60-64 | any stretch of T milliseconds between two writes of a job holds at most T * rate / 3,600,000 + 1 writes |
| BulkJobs.GapAtLeast | src/bulk/schedule.ts:76-80 | whatever the business schedule and the backpressure, the gap is at least the job's own |
| BulkWorkers.BulkJob.Fill | src/bulk/store.ts:53-69 | the prepared items are stored with their hash and the job is ready |
| BulkWorkers.BulkJob.Next | src/bulk/store.ts:77-79 | the first pending item, or none when none is pending |
| BulkWorkers.OneStep | src/bulk/worker.ts:35-54 | whatever Autotask answers, only the item's status and attempts change, and an outcome that says something about it strictly lowers the writes still ahead |
| BulkWorkers.BulkJob.Record | src/bulk/worker.ts:125-153 | what each outcome does to the item, the processed count, the failure streak, the pace and the job's status |
| BulkWorkers.BulkJob.Admit | src/bulk/worker.ts:91-109 | nothing passes in a quiet window, before the gap or under stop; the canary's end pauses the job |
| BulkWorkers.BulkJob.RunTick | src/bulk/worker.ts:85-123 | at most one write a tick, and only for the next pending item, whose key is in the approved hash, outside quiet windows, a full gap after the last, within the canary, and for a company only when none of its contacts is pending; done and skipped items never change |
| BulkWorkers.BulkJob.Run | src/bulk/worker.ts:85-153 | over any run of ticks and operator actions the hash stays the items', done and skipped items never change, excluded ones stay excluded and the order of the items is kept; between requeues the outcomes that say something about an item number at most three an item, and no company is written with a contact of its own still waiting |
| BulkWorkers.BulkJob.Act | src/bulk/service.ts:132-161 | the operator transitions, exactly; approval needs the job's exact hash, and nothing leaves done, cancelled or failed |
| BulkWorkers.WritesAreApproved | src/bulk/worker.ts:110-118 | every write ever sent was for a key on the hash's list, never for an excluded item, and each item was written well at most once |
| Prepares.ReadContacts | src/bulk/prepare.ts:73-79 | the contacts of the selected companies, all of them while no chunk exceeds the read cap |
| Prepares.CapHidesAPerson | src/bulk/prepare.ts:75-79 | a company whose only real person is beyond the read cap is protected, and any preparation of it lists it to be written all the same |
| Prepares.CheckHistory | src/bulk/prepare.ts:83-99 | a selected company gets a reason exactly when some kind of history has a row of it; a full read refuses |
| Prepares.CollectAddresses | src/bulk/prepare.ts:112-117 | each address with exactly the companies it occurs on |
| Prepares.ReadTickets | src/bulk/prepare.ts:140-153 | an address counts as ticketed exactly when somebody with it has a ticket |
| Prepares.Protect | src/bulk/prepare.ts:83-172 | a selected company is kept if and only if it has history, a contact read with a real name, or a contact read with an address that is to be kept, wherever in the tenant the ticket is; with all contacts read, if and only if it is protected |
| Prepares.BuildItems | src/bulk/prepare.ts:174-194 | each selected company is counted once, as excluded, written or already inactive, each counter exact; it is listed exactly when kept or active, after its contacts; of the contacts, exactly the active ones of companies that are not kept are listed |
| Prepares.Prepare | src/bulk/prepare.ts:51-203 | by the contacts read, exactly the active companies and contacts without protection are to be written and exactly the protected companies are excluded; the contacts read are all of them as long as no read of them is cut; nothing is prepared when a selected company is no placeholder or a checked read is full |
| Prepares.SeenTells | src/bulk/prepare.ts:73-79 | when the contacts read are all there are, what they protect is exactly what is protected |

## Left out

- ActivityFeeds.ActivityFeed.Ingest: when a ticket changed while the scan was under way, coverage is claimed up to the watermark less the overlap; the source modelled is tickets.
- ShadowSyncs.ShadowSync.ReadChanged: parents of changed notes and time entries are not queued (markParentsStale), since that only adds written rows to re-read.
- ShadowSyncs.ShadowSync.Effective: which of several candidate fields is the watermark is part of the entity's description.
- ShadowSql.TextLeaf: texts are ordered by character code; a database collation that orders them otherwise is not modelled.
- MirrorReads.ShadowRead: freshness, recent writes and known fields are one condition, availability.
- PlanStores.PlanStore.constructor: superseding the older open plans of a kind is left out, as there is one plan.
- BulkWorkers.BulkJob.Act: archiving and unarchiving a finished job change no item, and are left out.
- ShadowSyncs.ShadowSync.WindowRefresh: deletion soundness is not claimed, since a row whose date left the re-read range is marked deleted too; nor is presence of every row, since re-reading one new high id makes "new rows" skip lower unread ones until the next re-read.
- ShadowSyncs.ShadowSync.RefreshDirty: read-your-writes is not claimed, since marks are dropped before the re-read and not restored when it fails.
- Reverts.UndoRestores: an update with reference fields counts among the other rows, since no plan builder makes one and the executor fills its stored fields only when it runs.
- MirrorReads.Query: field names are taken to be spelled as in the rows (the case check of fieldsKnown is part of availability), and column selection is applied to both answers alike.
- Record 0 (the tenant's own company) is outside the mirror's walks, which start above id 0.
- Merging of partial sync-state patches (each save gives the whole state), row-diff audit events, row counts and error texts of the mirror.
- Numbers in filters are decimal numerals; exponents, blanks and NaN, which PostgreSQL also casts, and non-ASCII case folding are not modelled.
- PostgreSQL may skip an operand of AND or OR that this model evaluates, so a refused cast there may also be answered.
- The breaker's messages, its 429 cooldown (a request may be dropped for it) and the retry after a zone change.
- Prices of counter-adjustments: the units are proved, the price is compiled as in the source and taken to read as the counter expects the day before; whether a price keeps a line from showing the restored state by itself is an input.
- A line's unit period is taken to start on the day looked at; adjustments whose line is not known have no counter and are part of the line's own units.
- Fuzzy value comparison of plan rows (dates by day, numbers within a tolerance, numbers written as text), which is not transitive.
- The feed's ticket note and time entry sources, histories longer than one 500-row query, and event formatting.
- Purging operations older than 90 days, which frees their keys.
- Several bulk jobs at once: the worker takes the oldest running one; the model has one job.
- A cancel while a job is being prepared is overwritten by the prepared items (the job becomes ready, still unapproved), and BulkWorkers.BulkJob.Fill allows it; an operator action during a write in flight is excluded by atomic ticks.
- Duplicates of real contacts, counts and texts of the address review: they do not change a decision; a read that fails outright stops a preparation as a full one does.
- Endpoint slots, response parsing, caches and the call log of the HTTP client; the operator console.
