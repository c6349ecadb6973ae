# Verification of the accounting engine

A Dafny model of the double-entry ledger in `internal/features/accounting`, its repository package, and the `ByteSize` type of
`internal/platform/config`, with proofs about it. `dafny verify dfyconfig.toml` checks everything.

## How the model is built

- **Tables and steps.** `Tables` holds the database as one value, `Steps` gives the committed effect of every transaction as a
  function from tables to tables or an error. A failed transaction rolls back, so it has no effect.
- **Repository.** `Repository` is the Postgres repository as a class whose fields are the tables. Each method works on a private
  copy between `Begin` and `Commit`, with the loops of the source in `Transactions`, and is proved equal to its step, error by error.
- **Runs.** `Runs` lets any transactions follow each other from empty tables. `Invariants`, `Allocations`, `Hierarchy`,
  `PostingKeeps` and `OperationsKeep` prove what every step keeps, `StepEffects` what it leaves alone, where it posts and what it
  logs. `LedgerHistory`, `JournalChain`, `AuditTrail`, `AccountHistory`, `ClosedPeriods`, `YearClose` and `ReconciliationResults`
  say what follows. Where a query leaves its answer open, the answer is a parameter of the step.
- **Outcomes.** `PostingOutcomes`, `ReconcileTotals`, `ReconcileOutcomes`, `CloseOutcomes` and `MasterData` say of every step, on its
  arguments and the tables alone, exactly when it commits and what every field it writes then holds.
- **Use cases.** `UseCases` runs posting, reversal and ingestion against the repository without anyone in between.
- **Interleavings.** `PostRace` and `Ingest` split a call into its separate database accesses and let any other transactions happen
  in between. Both refine the runs. `CloseRace` and `CloseDisturbance` do so for the two balance queries of a year close.
- **Reports.** `ReportQueries` states the SQL aggregates as sums over posted lines; `Statements`, `GeneralLedger` and `CashFlow` are
  the loops over their rows, and `StatementFigures` takes their lists and totals one by one.
- **Text and numbers.** `Text`, `Json`, `MoveNames`, `Hashing`, `AuditChain` and `ByteSizes` work on the printed text itself; `Rounding` and
  `FxRevaluation` on exact integers. SHA-256 is a parameter, and results that need it to be collision-free say so.

Amounts are integers in units of 10^-4, the scale of the NUMERIC(28, 4) columns. Ids are natural numbers with 0 for the nil uuid. A
move line is identified by its move and its place there. A line's date is its move's date, as all writers of lines set it. A move
carries the number its name was printed from; the table holds only the name.

## What the proofs found

- The query for the newest move of a journal orders by name. From number 100000 on it no longer finds the newest move, except where
  all digits but the last are nines: 100000 to 999990 are all sealed over number 99999. The hash of a later entry therefore does not
  fix the earlier ones, and entry k can be rewritten and sealed anew unnoticed exactly when k does not sort last.
- A change of the journal's prefix can freeze the chain in the same way, for as long as its names sort before the newest old one.
- Undo of a reconciliation fails for good once its FX move has been reversed by hand.
- A year close is blocked, before anything is written, by a balance sheet group in a foreign currency that has a net but no foreign
  amount, and by a group with a foreign amount whose net is zero, where retained earnings in functional currency counts with the
  year's result added.
- The two balance queries of a year close are not one snapshot. If any open period covers a day up to the year end, an ingested event
  between them makes a close that was ready fail as unbalanced; if none does, nothing that leaves years and periods alone can.
- Reconciling lines of the gain or loss account itself posts an FX move whose two lines cancel.
- The functional part of an allocation is rounded twice, so that a share just under half of 10^-4 can come out as 10^-4.
- Years may overlap, and then the lookup for the period of a date may answer with either year's month. Posting a draft that was saved
  before the second year came is refused as changed whenever the answer is not the period it was saved into.
- Two saves of a draft with the same microsecond stamp defeat the check for concurrent edits.
- The accounting configuration can be written once: over any run every later update fails.
- The cash flow statement need not reconcile: capital paid in cash on an equity account of operating activity leaves a difference.
- A negative `ByteSize` prints as text that does not parse.

## Model

| member | source | states |
|---|---|---|
| Ledger.ValidateBalance | internal/features/accounting/entity.go:252-275 | No error exactly for at least two lines, each non-negative and not zero on both sides, with equal debit and credit totals; otherwise the first offending line in order decides which error it is, and the totals are compared only when no line offends. |
| Ledger.MirrorBalanced | internal/features/accounting/internal/repository.go:1024-1040 | The line-by-line mirror of a balanced entry is balanced again, on any date. |
| Ledger.Regroup | internal/features/accounting/internal/queries.go:19-43 | A weighted fold over the groups of a GROUP BY is the same weighted fold over the lines of the moves behind it, for any key, any set of groups and any weights. |
| Ledger.BalancedTotal | internal/features/accounting/internal/queries.go:19-43 | A set of balanced moves nets to nothing. |
| Text.PaddedSameLength | internal/features/accounting/internal/repository.go:631 | Two zero-padded numbers of the same printed length compare as text exactly as they compare as numbers. |
| MoveNames.NameInjective | internal/features/accounting/internal/repository.go:631 | Under one prefix, different numbers have different names. |
| MoveNames.NewestByName | internal/features/accounting/internal/repository.go:1447-1456 | ORDER BY name DESC puts the largest number first among 1..n exactly when n is at most 99999, or all digits of n but the last are nines. |
| Text.SortCanonical | internal/features/accounting/internal/repository.go:1422-1427 | Sorting gives the same list for two line lists exactly when they hold the same lines equally often. |
| Json.StringEnds | internal/features/accounting/internal/repository.go:1423-1445 | A JSON string, with its escapes, can be read back whatever follows it: the text determines the string and where it ends. |
| Hashing.LineTextInjective | internal/features/accounting/internal/repository.go:1399-1421 | Different lines have different JSON objects, line id and omitted empty fields included. |
| Hashing.RowOrderForgotten | internal/features/accounting/internal/repository.go:1422-1427 | The text under the hash does not depend on the order in which the lines were read. |
| Hashing.HashMoveFaithful | internal/features/accounting/internal/repository.go:1389-1445 | With a collision-free digest the hash of a move determines its id, name, date, journal, previous hash and every line. |
| AuditChain.VerifyAuditIntegrity | internal/features/accounting/internal/audit_chain.go:23-58 | The loop accepts exactly the logs in which every row names the hash of the row before it and carries the hash of its own fields. |
| AuditChain.PrefixVerified | internal/features/accounting/internal/audit_chain.go:23-58 | Every prefix of an accepted log is accepted. |
| AuditChain.AppendedVerified | internal/features/accounting/internal/repository.go:1297-1344 | Appending by insertAuditLog turns an accepted log into an accepted log that extends it. |
| AuditChain.AuditTextInjective | internal/features/accounting/internal/audit_chain.go:16-20 | The joined text determines previous hash, entity, action, payload and time when hash and action contain no separator, whatever the payload contains. |
| AuditChain.AuditHasherBinding | internal/features/accounting/internal/audit_chain.go:16-20 | With a collision-free digest the hash of a row determines its hashed fields, for actions without the separator. |
| AuditChain.LastHashDetermines | internal/features/accounting/internal/audit_chain.go:23-58 | Two accepted logs of the same length with the same last hash agree on every hashed field of every row. |
| Rounding.RoundDivNearest | internal/features/accounting/internal/reconciliation.go:86-90 | The rounded quotient is the nearest integer; halves go away from zero. |
| Rounding.ProRataBounded | internal/features/accounting/internal/reconciliation.go:86-90 | The functional share of a part of a line lies between zero and the functional amount of the line, through both roundings. |
| Rounding.ProRataError | internal/features/accounting/internal/reconciliation.go:86-90 | The two roundings move a share by at most half a unit of 10^-4 plus half a unit of 10^-16. |
| Rounding.ProRataTwice | internal/features/accounting/internal/reconciliation.go:86-90 | A share is the quotient to 16 decimals, rounded again to 4, both to the nearest with halves away from zero. |
| Rounding.TwoRoundingsDiffer | internal/features/accounting/internal/reconciliation.go:86-90 | Rounding twice is not rounding once: one unit shared at 10^12 in 2 * 10^12 + 1 comes out as one unit, where the nearest is none. |
| Transactions.PeriodByDate | internal/features/accounting/internal/reconciliation.go:324-338 | Returns a period that starts last among those that cover the date, any of them where several do, and none exactly if no period covers it. |
| Transactions.PreviousPostedMoveHash | internal/features/accounting/internal/repository.go:1447-1462 | Returns the hash of the move that sorts last by name in the journal, and the empty hash for an empty journal; there is never more than one such move. |
| Transactions.MirrorLines | internal/features/accounting/internal/repository.go:1024-1040 | The loop builds the mirror image of the original: debit and credit exchanged, the foreign amount negated, on the date of the reversal. |
| Transactions.CountAllocations | internal/features/accounting/internal/reconciliation.go:49-99 | The loop with its running totals and its set of seen lines passes exactly when every allocation meets each of its conditions; then it returns the amounts on debit and on credit lines, and functional parts that differ by their sum, signed like the nets of their lines. The first failing allocation decides the error. |
| Transactions.FailureStays | internal/features/accounting/internal/reconciliation.go:51-99 | Once an allocation fails, no later allocation changes the outcome. |
| Transactions.ApplyAllocations | internal/features/accounting/internal/reconciliation.go:114-128 | The update loop adds every allocation to its line. |
| Transactions.ReleaseAllocations | internal/features/accounting/internal/reconciliation.go:448-461 | The release loop takes every allocation off its line, or reports inconsistency exactly when one line has less than its allocation left. |
| Transactions.FiscalClosingLines | internal/features/accounting/internal/year_close.go:236-295 | The loop produces the specified closing lines: one line against each non-zero result balance and one for the total on retained earnings. |
| Transactions.FiscalOpeningLines | internal/features/accounting/internal/year_close.go:297-350 | The loop with its two running totals produces the specified opening lines or the specified error. |
| Transactions.FindDescendants | internal/features/accounting/internal/repository.go:80-90 | The recursive query returns the descendants of an account. |
| Transactions.FindClosingPeriod | internal/features/accounting/internal/year_close.go:59-70 | The loop finds a closing period exactly when the twelve periods are numbered in sequence and all hard closed, and then it is the last one. |
| Repository.PostgresRepository.SaveDraftMove | internal/features/accounting/internal/repository.go:634-689 | Equals its step, error by error; `PostingOutcomes.SaveCommits` and `PostingOutcomes.SaveWrites` write it out. |
| Repository.PostgresRepository.DeleteDraftMove | internal/features/accounting/internal/repository.go:691-714 | Equals its step, error by error; `PostingOutcomes.DeleteOutcome` writes it out. |
| Repository.PostgresRepository.PostMoveAtomic | internal/features/accounting/internal/repository.go:838-959 | Equals its step, error by error; `PostingOutcomes.PostCommits` and `PostingOutcomes.PostWrites` write it out. |
| Repository.PostgresRepository.PostNewMoveWithEventAtomic | internal/features/accounting/internal/repository.go:818-959 | Equals its step, error by error; `PostingOutcomes.EventCommits` and `PostingOutcomes.EventWrites` write it out. |
| Repository.PostgresRepository.ReverseMoveAtomic | internal/features/accounting/internal/repository.go:961-1078 | Equals its step, error by error; `PostingOutcomes.ReversalCommits` and `PostingOutcomes.ReversalWrites` write it out. |
| Repository.PostgresRepository.ReconcileMoveLines | internal/features/accounting/internal/reconciliation.go:32-165 | Equals its step, error by error; `ReconcileOutcomes.ReconcileCommits` and `ReconcileOutcomes.ReconcileWrites` write it out. |
| Repository.PostgresRepository.UnreconcileMoveLines | internal/features/accounting/internal/reconciliation.go:394-486 | Equals its step, error by error; `ReconcileOutcomes.UnreconcileCommits` and `ReconcileOutcomes.UnreconcileWrites` write it out. |
| Repository.PostgresRepository.UpdatePeriodState | internal/features/accounting/internal/repository.go:391-449 | Equals its step, error by error; where it succeeds the period has the requested state and nothing else has changed. |
| Repository.PostgresRepository.CloseFiscalYear | internal/features/accounting/internal/year_close.go:25-186 | Equals its step, error by error, on one snapshot; `CloseOutcomes.PreparedIs` and `CloseOutcomes.CloseWrites` write it out. |
| Repository.PostgresRepository.CreateAccount | internal/features/accounting/internal/repository.go:44-65 | Equals its step, error by error; `MasterData.CreateAccountOutcome` writes it out. |
| Repository.PostgresRepository.UpdateAccount | internal/features/accounting/internal/repository.go:67-151 | Equals its step, error by error; `MasterData.UpdateAccountOutcome` writes it out. |
| Repository.MethodIsStep | internal/features/accounting/internal/repository.go:834-959 | Every repository method is one step of a run: it keeps the invariant and extends the state, or leaves it alone. |
| UseCases.PostMove | internal/features/accounting/usecase_post_move.go:35-90 | Load, tests, period lookup and atomic post together have the specified outcome, with every refusal as an error of its own. Where the debits add up to more than a threshold that is set, it succeeds only with a known creator other than the actor. |
| UseCases.StoredPostCommits | internal/features/accounting/usecase_post_move.go:35-90 | A stored draft is posted exactly if it is balanced, there is an actor, the lookup answers with its own open period, its accounts are there, the next number is free and, where its debits add up to more than a threshold that is set, its creator is known and not the actor. |
| UseCases.CreatorPlaysNoPart | internal/features/accounting/usecase_post_move.go:52-70 | Without a threshold, or with debits up to it, whether a draft is posted does not depend on its creator. |
| UseCases.PostsInPeriodOfDate | internal/features/accounting/usecase_post_move.go:71-87 | If the lookup answers with an open period, an accepted draft is posted exactly when the answer is the period it was saved into; otherwise it is reported as changed. |
| UseCases.MonthsTie | internal/features/accounting/internal/repository.go:358-374 | Where periods are whole months, the lookup may answer with every period that covers the date: all of them start together. |
| UseCases.OverlapMayBlockDraft | internal/features/accounting/usecase_create_fiscal_year.go:42-72 | After an overlapping year of whole months is created, the lookup for a saved draft may answer with the old or with the new period: with the old one the post goes through as before, with the new one it is refused as changed. |
| UseCases.Reverse | internal/features/accounting/usecase_reverse_move.go:26-95 | Guards, period lookup and atomic reversal together have the specified outcome. |
| UseCases.StoredReversalCommits | internal/features/accounting/usecase_reverse_move.go:26-95 | A reversal by date commits exactly for a reversible move and a period found that is open on the date. |
| UseCases.IngestEvent | internal/features/accounting/usecase_ingest_subledger_event.go:43-161 | A known key answers with its move and changes nothing. A new key changes nothing, or posts one move that the key then names: on the event's date in the mapped journal, a debit and a credit of the same amount on the mapped accounts, the event's amount and its negative in the event's currency, and a functional amount that is amount times rate to the nearest 10^-4. |
| UseCases.NewEventCommits | internal/features/accounting/usecase_ingest_subledger_event.go:58-141 | A new event is posted exactly for an active mapping, accounts and journal, a positive rate, an open period found for its date, a new key and id, a free number, and an amount that comes to at least half of 10^-4. |
| Invariants.PostRowKeepsNumbers | internal/features/accounting/internal/repository.go:606-632 | Posting takes exactly the next number of its journal: the used numbers stay 1..next-1, each once. |
| Invariants.PostRowKeepsChain | internal/features/accounting/internal/repository.go:910-918 | Every entry stays sealed over the hash that the newest-move query finds among the smaller numbers, under any prefixes. |
| Invariants.PostRowKeepsReversals | internal/features/accounting/internal/repository.go:971-1000 | Reversals stay mirrors of posted originals, and no original gets two. |
| Allocations.LiveReconciliationReleases | internal/features/accounting/internal/reconciliation.go:448-461 | The allocations of a live reconciliation can always be released, and this subtracts exactly them. |
| Allocations.CheckedWithinCapacity | internal/features/accounting/internal/reconciliation.go:78-85 | Allocations that passed the tests leave every line within its capacity. |
| PostingOutcomes.SaveCommits | internal/features/accounting/internal/repository.go:634-689 | A save commits exactly for balanced lines on known accounts, a known journal and period, and an id that is new or a draft. |
| PostingOutcomes.SaveWrites | internal/features/accounting/internal/repository.go:655-683 | A save writes that one row: the first creator stays, and every line takes the date of the move and keeps its other fields. |
| PostingOutcomes.DeleteOutcome | internal/features/accounting/internal/repository.go:691-714 | A delete commits exactly for a draft and takes that row away. |
| PostingOutcomes.PostCommits | internal/features/accounting/internal/repository.go:838-959 | A loaded draft is posted exactly if it is balanced, the stored row is the draft that was loaded, its period is open on its date, its accounts are there and the next number of its journal is free. |
| PostingOutcomes.PostWrites | internal/features/accounting/internal/repository.go:919-959 | It becomes a posted row with the loaded lines under the next number, by the actor, in the log; nothing else changes. |
| PostingOutcomes.EventCommits | internal/features/accounting/internal/repository.go:818-959 | An event is posted exactly under a new key and id, with balanced lines on known accounts, in a period open on its date, with a free number. |
| PostingOutcomes.ReversalCommits | internal/features/accounting/internal/repository.go:961-1022 | A move is reversed exactly if it is posted with two or more lines and not reversed yet, under a new id, in a period open on the date, with a free number in its own journal. |
| PostingOutcomes.ReversalWrites | internal/features/accounting/internal/repository.go:1024-1078 | The reversal has the sides of every line exchanged and its foreign amount negated, all other fields kept, on the new date; it is logged under the id of the original. |
| PostingKeeps.SaveDraftKeeps | internal/features/accounting/internal/repository.go:634-689 | Saving a draft keeps the whole invariant and every posted row. |
| PostingKeeps.PostDraftKeeps | internal/features/accounting/internal/repository.go:838-959 | Posting a draft that still has the loaded stamp keeps the whole invariant. |
| PostingKeeps.PostEventKeeps | internal/features/accounting/internal/repository.go:818-959 | Posting an event keeps the whole invariant, and every key names a posted move. |
| PostingKeeps.ReverseMoveKeeps | internal/features/accounting/internal/repository.go:961-1078 | Reversing keeps the whole invariant. |
| OperationsKeep.ReconcileKeeps | internal/features/accounting/internal/reconciliation.go:32-165 | Reconciling keeps the whole invariant, the realised FX move included. |
| OperationsKeep.UnreconcileKeeps | internal/features/accounting/internal/reconciliation.go:394-486 | Undoing a reconciliation keeps the whole invariant. |
| OperationsKeep.PeriodStateKeeps | internal/features/accounting/internal/repository.go:391-449 | A change of period state keeps the whole invariant; closed years keep twelve hard-closed periods. |
| OperationsKeep.CloseYearKeeps | internal/features/accounting/internal/year_close.go:25-186 | Closing a year keeps the whole invariant, through closing move, opening move and state change. |
| OperationsKeep.PreparedIsHardClosed | internal/features/accounting/internal/year_close.go:56-70 | A year that passes the tests of its close has exactly twelve periods, all hard closed. |
| Runs.StepKeeps | internal/features/accounting/internal/repository.go:634-1078 | Any of the fifteen kinds of transaction that commits, a change of prefix among them, keeps the invariant and extends the state. |
| Runs.RunKeeps | internal/features/accounting/internal/repository.go:634-1078 | In every run of these fifteen kinds of transaction from empty tables every state satisfies the invariant, and later states extend earlier ones. |
| LedgerHistory.NumbersExact | internal/features/accounting/internal/repository.go:606-632 | In every reachable state the posted numbers of a journal are exactly 1..next-1, each used by one move whose name ends in it; failed transactions consume none. |
| LedgerHistory.PostedForever | internal/features/accounting/internal/repository.go:932-958 | A posted move and its lines never change or disappear in the rest of a run, and it is balanced and dated like its lines. |
| LedgerHistory.AuditGrows | internal/features/accounting/internal/repository.go:1297-1344 | The audit log of every reachable state passes verification and extends every earlier log. |
| LedgerHistory.ReconciledIsAllocated | internal/features/accounting/internal/reconciliation.go:114-128 | In every reachable state a line's reconciled amount is the sum of its allocations in live reconciliations and within its capacity. |
| MasterData.StoredIsLastAsked | internal/features/accounting/internal/repository.go:44-151 | Over every run an account, the state of a period, the prefix and activity of a journal and the configuration are what the last committed transaction that asked for them asked for. |
| MasterData.CodesStayUnique | internal/features/accounting/internal/repository.go:60-62 | In every reachable state no two accounts share a code. |
| MasterData.PeriodStateOutcome | internal/features/accounting/internal/repository.go:391-449 | The state of a period can be set exactly while its year is there and open and it is not hard closed or is in that state already; then only that state changes. |
| MasterData.YearOutcome | internal/features/accounting/internal/repository.go:318-356 | A year is created exactly as an open one under a new id and number with twelve open periods of its own under new ids and different numbers, and nothing else changes. |
| MasterData.UpdateAccountOutcome | internal/features/accounting/internal/repository.go:67-151 | In a sound hierarchy an account can be changed exactly if it is there, no other has its code, its parent is there, it does not become its own ancestor, and code and type stay or no posted line names it; then it is the new row. |
| LedgerHistory.HierarchyStaysAcyclic | internal/features/accounting/internal/repository.go:67-151 | In every reachable state the account hierarchy has no missing parent and no cycle. |
| LedgerHistory.ConfiguredOnce | internal/features/accounting/internal/repository.go:301-316 | Over any run a configuration, once there is one, stays as it is and every later update of it fails. |
| JournalChain.LinkCovers | internal/features/accounting/internal/repository.go:1447-1462 | Under one prefix the newest-move query finds entry k right after it was posted exactly when k sorts last, and otherwise never finds it. |
| JournalChain.NewestIsLastNumber | internal/features/accounting/internal/repository.go:1447-1462 | Under one prefix the query for the newest move finds the last number exactly when that number sorts last. |
| JournalChain.HashFixesJournal | internal/features/accounting/internal/repository.go:1389-1462 | With a collision-free digest the hash of entry n, n at most 100000, determines entries 1..n of the journal, across any two sound ledgers whose names in it carry one prefix. |
| JournalChain.SameHashOverDifferentEntries | internal/features/accounting/internal/repository.go:1447-1462 | From any sound state with next number n from 100000 to 999989: two different events posted as n, and the same event as n + 1 after either, give the same hash on n + 1. |
| JournalChain.RewriteDetected | internal/features/accounting/internal/repository.go:1389-1462 | Rewriting the date or lines of entry k and sealing it anew leaves every link of the ledger intact exactly when k does not sort last or is the last number of its journal. |
| JournalChain.ChainBreaksAfter99999 | internal/features/accounting/internal/repository.go:1447-1456 | All numbers from 100000 to 999990 are sealed over the hash of number 99999. |
| JournalChain.NewestAfterPosting | internal/features/accounting/internal/repository.go:1447-1456 | In any journal a new entry is found as the newest exactly when its name sorts after the newest name. |
| JournalChain.PrefixChangeHidesNewest | internal/features/accounting/internal/repository.go:528-541 | From any sound state: after UpdateJournal to a prefix that sorts before the newest name, the next entry is not found, and the entry after it is sealed over the same old entry. |
| JournalChain.PrefixFreezesLink | internal/features/accounting/internal/repository.go:528-541 | Over any run, while names under the prefix of a journal sort before its newest name, that entry stays the newest and everything posted is sealed over it alone. |
| JournalChain.OnePrefixOverRun | internal/features/accounting/internal/repository.go:528-541 | In every run that leaves the prefix of a journal alone all its names carry that prefix, as the chain results ask. |
| LedgerHistory.ReversedAtMostOnce | internal/features/accounting/internal/repository.go:971-1000 | In every reachable state a move has at most one reversal, through either reversal path, and it mirrors the original line by line. |
| LedgerHistory.ReversalUndoes | internal/features/accounting/internal/repository.go:961-1078 | A committed reversal takes exactly its original out of the books, per account and currency, and no further reversal of that original can commit on either path. |
| LedgerHistory.ReversalChainNets | internal/features/accounting/internal/repository.go:961-1078 | A chain of k moves, each the reversal of the one before, nets per account and currency to the first move when k is odd and to zero when k is even. |
| LedgerHistory.GroupMeasuresAreOdd | internal/features/accounting/internal/repository.go:1031-1033 | Nets and foreign amounts of an account and currency change sign under reversal, so they are measures the chain result applies to. |
| AuditTrail.EveryPostingAudited | internal/features/accounting/internal/repository.go:932-934 | In every reachable state every posted move, by whichever path it was posted, has an audit row whose actor is the poster recorded on the move. |
| AccountHistory.PostedAccountsKeepIdentity | internal/features/accounting/internal/repository.go:97-124 | Once an account has a posted line its code and type stay the same over the rest of any run. |
| ClosedPeriods.StepIntoHardClosed | internal/features/accounting/internal/repository.go:1346-1362 | The only posting into a period that is not open is the closing move of that period's own year, by the step that closes the year. |
| ClosedPeriods.HardClosedGainsOneMove | internal/features/accounting/internal/year_close.go:140-149 | Over the rest of any run a hard-closed period gains at most one posted move, and then its year has been closed by that step. |
| ClosedPeriods.ClosedIsTerminal | internal/features/accounting/internal/repository.go:391-449 | Hard-closed periods and closed years never change again, and a closed year has twelve hard-closed periods. |
| YearClose.ClosingLinesBalanced | internal/features/accounting/internal/year_close.go:236-295 | For any result balances the closing lines are empty or pass ValidateBalance. |
| YearClose.ClosingNeverInvalid | internal/features/accounting/internal/year_close.go:137-149 | The closing move never fails validation. |
| YearClose.ResultsAreZero | internal/features/accounting/internal/year_close.go:236-295 | After the closing move every income and expense account nets to zero as of the year end. |
| YearClose.RetainedTakesResult | internal/features/accounting/internal/year_close.go:277-293 | Retained earnings moves by exactly the total that was swept, the whole result of the books. |
| CloseOutcomes.PreparedIs | internal/features/accounting/internal/year_close.go:25-140 | What a close reads before it writes is fixed by its arguments and the tables, and it gets that far exactly if the year is open with twelve hard-closed periods numbered to its end, no draft is dated in it, the open successor starts the next day in its open first period, and journal, configuration and retained earnings account are in order. |
| CloseOutcomes.CloseCommits | internal/features/accounting/internal/year_close.go:135-186 | In a sound state a close that may begin commits exactly if no balance sheet group in a foreign currency has a net without a foreign amount, none is left with a foreign amount but no net once the result is swept, and the ids and names of the moves it posts are free: the closing move if there is a result, the opening move if there are groups to carry. |
| CloseOutcomes.CloseTakesResult | internal/features/accounting/internal/year_close.go:111-122 | A committed close puts the total of all income and expense accounts, as of the year end, on the retained earnings account it was asked to use, or on the configured one where it was asked for none, and leaves every income and expense account at zero. |
| CloseOutcomes.CloseWrites | internal/features/accounting/internal/year_close.go:135-186 | A committed close posts the closing move into the last period on the last day exactly if there is a result, the opening move into the first period of the next year on its first day exactly if there are groups to carry, marks the year closed, logs that, and changes no other row. |
| YearClose.OpeningDifference | internal/features/accounting/internal/year_close.go:297-350 | In any sound ledger the opening lines are out of balance by exactly the result that has not been swept. |
| YearClose.OpeningAlwaysBalances | internal/features/accounting/internal/year_close.go:346-348 | Once results are zero the two running totals of the opening lines always agree. |
| YearClose.OpeningValidates | internal/features/accounting/internal/year_close.go:372-374 | Opening lines pass validation exactly when no group has a zero net. |
| YearClose.GroupAfterClose | internal/features/accounting/internal/year_close.go:277-293 | The closing move changes no balance sheet group but retained earnings in functional currency, which takes the result, and no foreign amount. |
| YearClose.OpeningOutcome | internal/features/accounting/internal/year_close.go:150-161 | On the tables before the call: the unbalanced error cannot occur on one snapshot; the close fails for a missing foreign amount exactly when a foreign-currency group has a net without one, and otherwise for validation exactly when a group has a foreign amount but its net, with the result added to retained earnings, is zero. |
| CloseRace.CloseSeesTwoStates | internal/features/accounting/internal/year_close.go:137-161 | If others commit between the two balance queries, the results keep what they added up to the year end, and the close fails as unbalanced exactly when the result has changed and no foreign amount is missing. |
| CloseRace.QuietCloseBalances | internal/features/accounting/internal/year_close.go:137-161 | Over any transactions of others between the two queries: if no open period reaches back to the year end and no year is closed, the results are zero and the close does not fail as unbalanced. |
| CloseDisturbance.UnbalancedIffReachedBack | internal/features/accounting/internal/year_close.go:137-161 | For any sound state in which the close is prepared, its closing move would commit and no foreign amount is missing: some transactions of others between the two queries, which leave years and periods alone, make the close fail as unbalanced exactly when some open period covers a day up to the year end. |
| YearClose.OpeningCarriesBalances | internal/features/accounting/internal/year_close.go:150-161 | The opening move of a committed close carries every balance sheet group as it was before the call, with the result added to retained earnings, into the first period of the next year. |
| ReconciliationResults.UndoNeverInconsistent | internal/features/accounting/internal/reconciliation.go:449-461 | In every sound state undo never reports inconsistent reconciled amounts. |
| ReconciliationResults.UndoSucceeds | internal/features/accounting/internal/reconciliation.go:394-486 | Undo of a live reconciliation succeeds exactly when it has no FX move or that move can be reversed in the period found for the date, whichever the lookup finds. |
| ReconciliationResults.ReversedFxBlocksUndo | internal/features/accounting/internal/reconciliation.go:462-466 | Reconcile with a realised difference, reverse its FX move by hand: in every later state undoing that reconciliation fails as already reversed. |
| ReconciliationResults.UndoRestoresResiduals | internal/features/accounting/internal/reconciliation.go:394-461 | Reconcile and then unreconcile restores every reconciled amount and the reconciliation table. |
| ReconciliationResults.UndoRestoresBalances | internal/features/accounting/internal/reconciliation.go:462-466 | Reconcile and then unreconcile leaves the net of every account and currency as it was. |
| ReconciliationResults.FunctionalPartBounded | internal/features/accounting/internal/reconciliation.go:86-90 | The functional part of an allocation lies between zero and the functional amount of its line. |
| ReconciliationResults.NoFxWithoutForeignAmounts | internal/features/accounting/internal/reconciliation.go:130-145 | Lines whose foreign and functional magnitudes coincide never produce an FX move, at any partial amounts. |
| ReconciliationResults.FxMoveCancelsDifference | internal/features/accounting/internal/reconciliation.go:250-270 | The FX move is balanced and takes exactly the functional difference off the reconciled account, except when that account is itself the gain or loss account, where it cancels itself. |
| ReconcileTotals.TotalsAre | internal/features/accounting/internal/reconciliation.go:86-97 | The totals are the amounts on lines with more debit than credit, the amounts on all others, and the functional parts of both, signed like the nets of their lines. |
| ReconcileTotals.TestsPass | internal/features/accounting/internal/reconciliation.go:41-105 | The tests pass exactly with an actor, two or more different items that are each positive, on posted lines of one active reconcilable account and one currency, dated by then and within the residual, with equal positive amounts on both sides and a new id. |
| ReconcileOutcomes.ReconcileCommits | internal/features/accounting/internal/reconciliation.go:32-165 | A reconciliation commits exactly if its tests pass and either no difference is realised or the move for it fits: configuration, open period, active journal, active gain and loss accounts of their types, free number. |
| ReconcileOutcomes.ReconcileWrites | internal/features/accounting/internal/reconciliation.go:106-165 | It enters the reconciliation with its items, adds each item to its line, posts the move for a realised difference with every field as given, logs both, and writes nothing else. |
| ReconciliationResults.ReconcileSettles | internal/features/accounting/internal/reconciliation.go:130-147 | A reconciliation takes the functional parts of its items, signed like the nets of their lines, off the reconciled account and puts them on the loss account where they are positive together and on the gain account where negative; no other account moves. |
| ReconciliationResults.SettledInFull | internal/features/accounting/internal/reconciliation.go:86-147 | If every item takes its whole line, the nets of these lines and what the reconciliation puts on their account add up to zero, unless that account is the gain or loss account. |
| ReconcileOutcomes.UnreconcileCommits | internal/features/accounting/internal/reconciliation.go:394-486 | In a sound state a reconciliation is undone exactly if it is there and has no FX move or one that is not reversed yet, whose accounts and next number are in order, in an open period found for the date. |
| ReconcileOutcomes.UnreconcileWrites | internal/features/accounting/internal/reconciliation.go:394-486 | It drops the reconciliation, takes each item off its line, posts the line-by-line reversal of the FX move without matching keys, logs both, and writes nothing else. |
| ReconciliationResults.ExhaustedDrift | internal/features/accounting/internal/reconciliation.go:86-90 | In every reachable state: once the live reconciliations of a line add up to its capacity, the functional parts they counted miss its functional amount by at most half of 10^-4 plus half of 10^-16 for each partial allocation. |
| ReconciliationResults.ListedIfAllocatable | internal/features/accounting/internal/reconciliation.go:344-352 | On a listed line with an active account and a date on or before the reconciliation, the amounts that can be allocated are all from the smallest up to the residual, and on any other line none. |
| PostRace.CheckPost | internal/features/accounting/usecase_post_move.go:44-70 | No error exactly when the held move is a balanced draft, there is an actor and, where the debits add up to more than a threshold that is set, the creator is known and someone else; every error has its exact condition. |
| PostRace.NextKeeps | internal/features/accounting/usecase_post_move.go:35-90 | Every interleaved event keeps sessions true to the rows they read for as long as the stamp is unchanged. |
| PostRace.RaceIsRun | internal/features/accounting/usecase_post_move.go:35-90 | Interleaved posting in three reads refines whole transactions: each state of the tables is one that a run reaches. |
| PostRace.DraftIsLatestSave | internal/features/accounting/internal/repository.go:655-683 | In every interleaving a stored draft has the journal, period, date and lines of the latest save of it. |
| PostRace.ApprovedExactly | internal/features/accounting/usecase_post_move.go:44-80 | In an interleaving a call is approved exactly for a balanced draft with an actor and an open period and, only where the debits add up to more than a threshold that is set, a known creator other than the actor. |
| PostRace.PostsLatestSave | internal/features/accounting/internal/repository.go:881-909 | In every interleaving a call that posts a move posts the lines of the latest save, which are the lines its tests saw; if their debits add up to more than a threshold that is set, the creator is known and is not the poster. |
| PostRace.CreatorStays | internal/features/accounting/internal/repository.go:664 | As long as a draft exists its recorded creator does not change. |
| PostRace.CreatorSaved | internal/features/accounting/internal/repository.go:664 | The recorded creator of a draft was given by one of its saves. |
| PostRace.EditingIsReached | internal/features/accounting/internal/repository.go:318-356 | A run reaches the state with two accounts, a year of twelve periods and a journal from which the row of EqualStampsLoseAnEdit starts. |
| PostRace.EqualStampsLoseAnEdit | internal/features/accounting/internal/repository.go:647 | If two saves get equal stamps, an edit between read and commit is lost: from that state the post carries the older lines. |
| Ingest.EventLinesBalanced | internal/features/accounting/usecase_ingest_subledger_event.go:119-140 | An event can be posted exactly when its amount does not round to nothing in functional currency. |
| Ingest.TrafficKeeps | internal/features/accounting/usecase_ingest_subledger_event.go:48-56 | In every interleaving every answered call names the move of its key. |
| Ingest.PostingTakesOneNumber | internal/features/accounting/internal/repository.go:935-945 | A post that commits takes one new key, one new move and one number of one journal. |
| Ingest.PostedOncePerKey | internal/features/accounting/usecase_ingest_subledger_event.go:142-156 | In every interleaving a key is posted at most once, so it takes one move and one journal number in all. |
| Ingest.CallsAgree | internal/features/accounting/usecase_ingest_subledger_event.go:142-156 | All successful calls of one key return the same move, and it stays posted unchanged. |
| Ingest.PostedKeyAnswers | internal/features/accounting/usecase_ingest_subledger_event.go:48-56 | Once a key is posted every check and every recovery answers with its move, and every further post of it fails without effect. |
| Hierarchy.CreateKeepsHierarchy | internal/features/accounting/internal/repository.go:44-65 | A new account under an existing parent keeps the hierarchy acyclic. |
| Hierarchy.TestIsExact | internal/features/accounting/internal/repository.go:74-95 | The descendant test refuses a new parent exactly when the account would become its own ancestor. |
| Hierarchy.UpdateKeepsHierarchy | internal/features/accounting/internal/repository.go:74-95 | The descendant test of an update is enough to keep the hierarchy acyclic. |
| Hierarchy.Visit | internal/features/accounting/usecase_list_accounts_tree.go:56-71 | The three-colour walk ends, fails only on a cycle, and otherwise ranks every account above its parent. |
| Hierarchy.FindCycle | internal/features/accounting/usecase_list_accounts_tree.go:54-76 | In whatever order accounts are taken, the walk reports a cycle exactly when there is one. |
| Hierarchy.BuiltForest | internal/features/accounting/usecase_list_accounts_tree.go:78-89 | The recursive build ends and places every account exactly once, under its own parent. |
| Hierarchy.ListAccountsTree | internal/features/accounting/usecase_list_accounts_tree.go:24-92 | Fails exactly on a nil account, a repeated id, a missing parent or a cycle, and otherwise returns that forest, with siblings in the order of the list. |
| ReportQueries.TrialRowNets | internal/features/accounting/internal/queries.go:19-43 | Initial, period and ending columns of an account are its posted debits and credits before, within and up to the end of the range. |
| ReportQueries.RowsToMoves | internal/features/accounting/internal/queries.go:19-43 | Any weighted sum over report rows is a weighted sum over posted lines. |
| ReportQueries.NetsToNothing | internal/features/accounting/internal/queries.go:19-43 | Up to any day the posted lines net to zero, because a move lies wholly inside or wholly outside the range. |
| ReportQueries.LeftOutIsZero | internal/features/accounting/internal/queries.go:70-78 | An account that the as-of query drops, because its lines are all on drafts, has a zero balance. |
| Statements.TrialBalance | internal/features/accounting/usecase_generate_trial_balance.go:25-52 | For every range the totals are all posted debits and credits up to its end, and they are equal. |
| Statements.RangesJoin | internal/features/accounting/internal/queries.go:35-43 | The ending balances of a range are the initial balances of the range that starts the next day. |
| Statements.MakeIncomeStatement | internal/features/accounting/usecase_generate_income_statement.go:19-66 | Fails exactly on an unknown account; otherwise lists revenue and expenses with their totals, and net income is the credit net of both kinds of accounts. |
| Statements.NetIncomeIs | internal/features/accounting/usecase_generate_income_statement.go:44-64 | Net income is what all posted lines of the period credit to income and expense accounts on balance. |
| Statements.IncomeIsGrowthOfResult | internal/features/accounting/usecase_generate_income_statement.go:44-64 | Net income of a period is the growth over it of the result that the balance sheet shows. |
| Statements.MakeBalanceSheet | internal/features/accounting/usecase_generate_balance_sheet.go:19-73 | Fails exactly on an unknown account; otherwise lists the three kinds on their normal side with totals, and the difference is assets less liabilities less equity with the result. |
| Statements.SheetDifference | internal/features/accounting/usecase_generate_balance_sheet.go:40-71 | For every ledger of balanced posted moves the difference is minus twice the debit net of the contra accounts. |
| Statements.SheetBalances | internal/features/accounting/usecase_generate_balance_sheet.go:68-71 | The sheet balances whenever normal balances match account types. |
| Statements.SheetResult | internal/features/accounting/usecase_generate_balance_sheet.go:62-66 | The result on the sheet is what all posted lines so far credit to income and expense accounts on balance. |
| GeneralLedger.GeneralLedgerRows | internal/features/accounting/internal/queries.go:156-204 | The rows from a day on run, line by line, from the initial balance that the trial balance shows to its ending balance. |
| GeneralLedger.KeysSum | internal/features/accounting/internal/queries.go:160-181 | The lines of an account, in any order, add up to its trial balance. |
| StatementFigures.ListsItsKind | internal/features/accounting/usecase_generate_income_statement.go:44-60 | Each list of a statement holds exactly the rows of its account type, in their order, each with its amount. |
| StatementFigures.IncomeTotals | internal/features/accounting/usecase_generate_income_statement.go:44-64 | Total revenue is what the posted lines of the range credit to income accounts, total expenses what they debit to expense accounts. |
| StatementFigures.SheetTotals | internal/features/accounting/usecase_generate_balance_sheet.go:40-71 | Total assets, liabilities and equity are what the posted lines up to the day leave on these accounts, each on its normal side; equity also takes the result shown. |
| CashFlow.MakeCashFlow | internal/features/accounting/usecase_generate_cash_flow.go:23-114 | Fails exactly on an unknown account or a movement without a single valid activity; otherwise each of the six figures is its own fold over rows or movements, and the difference is what they leave of the change in cash. |
| CashFlow.DifferenceIsResiduals | internal/features/accounting/usecase_generate_cash_flow.go:52-112 | For every ledger the reconciliation difference is the sum, over the posted moves of the period, of a residual that depends on the lines of the move alone. |
| CashFlow.FailsOnMixedActivities | internal/features/accounting/internal/queries.go:109-134 | The statement fails exactly when a move with a cash movement has counterparts of several classified activities and none unclassified. |
| CashFlow.ResidualIsExcess | internal/features/accounting/usecase_generate_cash_flow.go:52-112 | The residual of a balanced move is what its lines weigh beyond the weight that would let them cancel. |
| CashFlow.OneLineOffTarget | internal/features/accounting/usecase_generate_cash_flow.go:52-112 | If one line of a balanced move is off that weight, the move leaves a residual exactly when the line has a net. |
| UnreconciledReport.ReportDoesNotReconcile | internal/features/accounting/usecase_generate_cash_flow.go:107-112 | A run reaches a ledger, with capital paid in cash on an operating equity account, for which the statement can be made and its difference is the amount paid in. |
| CashFlow.ShapesReconcile | internal/features/accounting/usecase_generate_cash_flow.go:52-112 | A balanced move of one of the five shapes leaves no residual: operating, investing, financing, unclassified, or non-cash against flagged results. |
| CashFlow.CashFlowReconciles | internal/features/accounting/usecase_generate_cash_flow.go:107-112 | If every posted move of the period has one of the shapes, every movement has a place and the difference is zero. |
| CashFlow.GenerateCashFlow | internal/features/accounting/usecase_generate_cash_flow.go:23-114 | The whole use case: fails exactly on a bad range or a mixed cash move. Otherwise investing, financing and unclassified are the cash of the moves of the period whose counterparts have that one activity, or none; change in cash, non-cash adjustments and working capital are the posted lines on accounts flagged or classified so; and the difference is the sum of the residuals of the moves, zero when all have a shape. |
| FxRevaluation.Revalue | internal/features/accounting/usecase_revalue_fx.go:67-189 | Succeeds exactly for a supported base currency, an active journal, different active gain and loss accounts of their types, an open period, positions that are active asset or liability accounts in other supported currencies with positive rates, and at least one adjustment; then the draft is balanced. |
| FxRevaluation.AdjustmentsBalanced | internal/features/accounting/usecase_revalue_fx.go:134-181 | For any position list the lines come in sound pairs that net to zero. |
| FxRevaluation.EffectByAccount | internal/features/accounting/usecase_revalue_fx.go:162-174 | The net effect on a position account is the sum of its deltas; gains are credited and losses debited in full, so all deltas together are gains less losses. |
| FxRevaluation.AdjustedNearest | internal/features/accounting/usecase_revalue_fx.go:162-163 | The adjustment is foreign amount times rate less carrying amount, each to the nearest minor unit of the base currency, halves away from zero. |
| FxRevaluation.LinesByPosition | internal/features/accounting/usecase_revalue_fx.go:119-181 | The lines are one pair for each adjusted position, in order, each with the position's partner and cost centre, its own net in the base currency, and the date. |
| FxRevaluation.WithinOneUnit | internal/features/accounting/usecase_revalue_fx.go:162-163 | After the adjustment a non-zero foreign position is carried within one minor unit of foreign amount times rate. |
| FxRevaluation.NegationMirrors | internal/features/accounting/usecase_revalue_fx.go:162-174 | Negating all positions mirrors the draft pair by pair, with gains as losses and losses as gains. |
| FxRevaluation.ForeignGroupsUntouched | internal/features/accounting/usecase_revalue_fx.go:119-132 | The adjustments change no foreign currency group, so a second revaluation sees the same positions again. |
| ByteSizes.ParseByteSize | internal/platform/config/types.go:201-241 | The scan loop returns the specified size or error, and never a negative or oversized count. |
| ByteSizes.PrintedParses | internal/platform/config/types.go:201-241 | A printed number followed by any of the texts of a unit, in any case, is read as their product; a kilobyte is 1024 bytes, and so on by powers. |
| ByteSizes.PrintsLargestUnit | internal/platform/config/types.go:126-139 | A positive count is printed with the largest unit that divides it. |
| ByteSizes.FractionScales | internal/platform/config/types.go:235-240 | A decimal fraction is scaled exactly and only then cut to whole bytes, with a range error exactly above 2^63-1. |
| ByteSizes.RoundTrip | internal/platform/config/types.go:126-241 | For every 64-bit count, reading back the printed text gives the count exactly when it is not negative; a negative count fails to parse. |

## Left out

- HTTP handlers, routing, JSON decoding, DTO mapping, logging and event publishing.
- pgx, pools and migrations: kept only as atomic commits, unique indexes and foreign keys. Transactions take effect one after the other,
  as their row locks make them, except that a year close reads twice: see `CloseRace.CloseSeesTwoStates`.
- Uuid generation and clocks: ids and stamps are parameters, one clock reading a transaction.
- Uuids, dates and amounts as text: the hash payload prints ids, day numbers and units of 10^-4 as decimal numbers, and a line's uuid as
  its move and place.
- The audit payloads of reconciliations, system moves and year closes: rows are appended with an empty payload, while the chain results
  hold for any payload text.
- Collations: names compare by character code, the order of the C collation.
- Row order of reads: lines of a move keep the order in which they were saved, and results that depend on an order say which.
- Codes, names and types of journals, names of accounts and periods, references and cost-centre or partner tables.
- Creating a year enters its twelve periods in one step; the date arithmetic of its use case is not modelled.
- Reads that use cases make before a transaction and that the transaction does not repeat (active journal, active accounts, active
  parent) are modelled only for posting, reversal and ingestion.
- Report use cases read rows, accounts and movements in separate queries; the results about reports are for one state of the tables.
- Bulk posting, which is not atomic, is a series of single posts.
- The event type of an ingested event and the validation of request fields.
- Pagination, listings, mapping CRUD, exchange-rate lookup, governance settings beyond the threshold.
- Amounts with more than four decimals, whose rounding by the database happens after validation.
- The `reversed` state, which no code writes.
- The JSON number form of a `ByteSize`.
- Normalisation of currency codes to upper case in the revaluation: positions carry normalised codes.
- PostingKeeps.PostDraftKeeps: asks that an unchanged stamp means unchanged lines, which `PostRace.RaceIsRun` proves of every
  interleaving with fresh stamps.
- Repository.PostgresRepository.CloseFiscalYear: takes its two balance queries as one snapshot; `CloseRace.CloseSeesTwoStates` and
  `CloseDisturbance.UnbalancedIffReachedBack` say what changes when they are not.
- JournalChain.HashFixesJournal: stops at number 100000; `JournalChain.SameHashOverDifferentEntries` shows that it fails after that, and
  `JournalChain.RewriteDetected` gives the numbers that later hashes still cover.
