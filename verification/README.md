# Verified model of the accounting and banking core

This project models the parts of the accounting and banking back end that keep
state over many calls, and proves what they guarantee. Verify with
`dafny verify dfyconfig.toml`.

* `TaxMatching` is the greedy matcher of tax obligations against bank transactions.
  Whatever rows the database picks, it leaves no open obligation with a free
  transaction, and settles at least half of the largest possible number; the half is
  reached.
* `CandidateScoring`, `ReconciliationBook` and `AutoReconciliation` are the bank
  reconciliation engine: the score, the graph of transactions, invoices and
  obligations over every run of calls, and the automatic run, which is idempotent;
  `ReconciliationRaces` lets the calls overlap.
* `TokenRotation` is the refresh-token rotation under every interleaving of calls.
* `RecurringBilling` is the billing engine with any number of interleaved runners.
* `AnomalyStatistics`, `CashFlowTrend` and `CashFlowProjection` are the statistics:
  how rare anomalies are and how large a sample they need, the least-squares trend,
  and a projection that conserves money and does not drift.
* `Ledger`, `LedgerServices`, `LedgerOutcomes` and `LedgerSummary` are the accounting
  entries, the account plan and the period locks; `LedgerRaces` takes the calls on entries apart into
  statements that interleave.
* `Compliance` is the compliance engine, which drives the stored open checks to say
  what the current findings say.
* `OfxImport` is the import of bank statements, by both importers.
* `CheckThenCreate` and `OverlappingRuns` are imports and engine runs that overlap.
* `TtlStore`, `CacheKeys`, `LayeredCache`, `CacheRuns`, `CacheOwners` and `CommandCenter`
  are the bounded caches and the three layers built on them; `CacheRuns` takes the calls
  apart into steps that overlap in any order, and `CacheOwners` proves that each answer is
  for the company that asked.
* `TenantScope` and `RequestGuards` are the rewriting of queries by tenant, and the
  pipeline that decides which tenant a request runs under.
* `Cnpj` is the check-digit rule of the company registry number.

`Entities`, `Wrappers`, `Text`, `Pages`, `Cardinality`, `MapSums`, `Rounding`,
`RealArithmetic` and `RealSums` hold what these modules share.

Conventions. Amounts are integer cents and times integer milliseconds, except in the
statistics, which use exact reals. A call that changes stored rows is a method of a
class whose contract ties the new state to a function of the old one; the theorems are
about those functions, over every run. Where a query has no order, or ties are possible,
the choice is arbitrary and the theorem holds for each one. Where a property fails for
some inputs, the exact condition is proved (the lemmas whose names end in `Iff`).

Facts about the code that the proofs brought out:

* a forced reconciliation that replaces an invoice leaves that invoice marked reconciled
  with no transaction (`ReconcileOrphansIff`, reached in `OrphanIsReached`), and force
  never takes a target from the transaction that holds it, because the link columns are
  unique (`HolderKeepsTarget`);
* detecting the reuse of a refresh token closes the session family exactly when no refresh
  of the user is past its compare-and-set; otherwise that refresh brings a live session
  back (`ReuseClosesIff`, reached in `RevivalIsReached`);
* the second period locker does not flag the entries of the period it locks
  (`FlagsMatchIff`, reached in `WrongFlagIsReached`); unlocking that period repairs the
  flags (`RunFlags`);
* on the compliance checks that the service writes, ignored checks are counted as resolved,
  so the ignored counter of the summary is zero (`SummaryOfRun`);
* the engine leaves stale checks open when more than a thousand are open
  (`EngineConvergesIff`, reached in `UnconvergedIsReached`);
* the comment on the importer that uses the FITID as row id promises that a transaction
  is never duplicated; it can be, after the other importer wrote it under its own id
  (`UpsertKeepsUniqueIff`, `DuplicateIsReached`), and it is dropped when another account
  holds the same FITID (`UpsertRecordsAllIff`, `DroppedEntryIsReached`);
* the cache key takes a missing `includeAudit` for false and the summary takes it for true,
  so one that leaves it out can be answered without the audit list, and one that refuses it
  with the list (`AnsweredAsAskedIff`, reached in `UnclearIsReached`);
* a delete on a soft-delete model gives rows that were deleted before a new deletion date
  (`SoftDeleteStamps`);
* rounding lets a candidate that is farther in time tie with a nearer one, and the newer of
  them is then matched (`FartherCanTie`); only a hundredth of a day can be lost so
  (`DecidedIsNearest`);
* an update that names another company hands rows over to it (`HandOverIff`, reached in
  `HandOverIsReached`);
* the extension passes an upsert on unchanged, so one that names another company writes that
  company's row (`StepKeepsForeignIff`, reached in `ForeignUpsertIsReached`);
* a request without a user gets the tenant context of whatever company it names
  (`GuardsAgree`);
* a call on an entry that passed its period check before the period was locked still writes
  its entry; an update that read the entry in another period even takes it out of the locked
  one (`FrozenIff`; the first is reached in `LateEntryIsReached`);
* two overlapping reconciliations of one transaction orphan an invoice without force, and an
  overlapping update can put a DEBIT under an invoice link (`CommitKeepsNoOrphansIff`,
  `OrphanWithoutForce`, `CommitKeepsConsistentIff`, `DebitUnderInvoice`);
* overlapping imports of one account, or engine runs of one company, create a row twice
  exactly when they share something new (`OverlappingImportsIff`, `OverlappingEnginesIff`);
* a valid numeric registry number catches every error of one digit exactly when a check
  digit is not zero, or its two weighted sums have the same remainder, or its first, fifth
  and ninth digits are 1, 5, 1 with remainders (0, 1) or 8, 4, 8 with remainders (1, 0)
  (`CatchesDigitChangesIff`); it catches every swap of neighbours exactly when a check
  digit is not zero, or the remainders differ, or no two neighbours are exchangeable
  (`CatchesSwapsIff`); and a letter and a digit eleven apart can be exchanged
  (`SubstitutionIff`).

## Model

| member | source | states |
|---|---|---|
| TaxMatching.TaxMatcher.ReconcileTaxObligations | src/modules/finance/finance.service.ts:58-154 | if it commits: each pair added to the audit log was a pending obligation of an unlocked month and a free transaction of exactly the negative amount, at most fifteen days before and five days after the due date, now PAID and linked; the pairs were feasible together and are all that changed, no obligation settled was linked to a transaction left alone, no free transaction could still pay a pending obligation of an open month, and an obligation left out lost each fitting transaction to one due no later. Otherwise nothing changed, and at the start a fitting pair had an obligation that another transaction was linked to. Paid and reconciled amounts keep their sum on both outcomes |
| TaxMatching.RollbackIsReached | src/modules/finance/finance.service.ts:92-145 | a state from which no run can commit |
| TaxMatching.TaxMatcher.PendingByDueDate | src/modules/finance/finance.service.ts:65-68 | lists each pending obligation once, by due date |
| TaxMatching.TaxMatcher.Settle | src/modules/finance/finance.service.ts:107-133 | one pair is settled and recorded |
| TaxMatching.HalfOptimal | src/modules/finance/finance.service.ts:75-145 | every feasible matching of the initial state has at most twice as many pairs as the greedy one, whatever rows were picked |
| TaxMatching.HalfIsReached | src/modules/finance/finance.service.ts:92-107 | the factor two cannot be improved: one allowed pick settles one pair where two were possible |
| TaxMatching.SettlePairStep | src/modules/finance/finance.service.ts:107-117 | settling a pair that fits the current state keeps all settled pairs feasible in the initial one |
| TaxMatching.SettledKeepsPendingUnlinked | src/modules/finance/finance.service.ts:109-117 | if no transaction was linked to a pending obligation, none is afterwards |
| CandidateScoring.CalculateDescriptionScore | src/modules/banking-enterprise/banking-enterprise.service.ts:1094-1113 | the counting loop computes twenty for containment, else five a common word up to twenty |
| CandidateScoring.WordsAreRuns | src/modules/banking-enterprise/banking-enterprise.service.ts:1101-1102 | the words compared are exactly the maximal runs of word characters |
| CandidateScoring.DescriptionScoreSymmetric | src/modules/banking-enterprise/banking-enterprise.service.ts:1094-1113 | exchanging the two descriptions does not change the score |
| CandidateScoring.ScoreBounds | src/modules/banking-enterprise/banking-enterprise.service.ts:1115-1154 | every score lies between 0 and 100 |
| CandidateScoring.AutomaticMatchCondition | src/modules/banking-enterprise/banking-enterprise.service.ts:1115-1154 | exactly when a candidate of accepted amount reaches the score of seventy that matches without a person |
| CandidateScoring.DayFartherCostsAPoint | src/modules/banking-enterprise/banking-enterprise.service.ts:1130-1144 | between candidates of accepted amount and equal description score, within the date tolerance and twenty days, scores differ by the distance in days to within a hundredth |
| CandidateScoring.FartherScoresLess | src/modules/banking-enterprise/banking-enterprise.service.ts:1130-1144 | one farther by a hundredth of a day scores less than a nearer one in reach |
| CandidateScoring.FartherCanTie | src/modules/banking-enterprise/banking-enterprise.service.ts:1141-1144 | within the hundredth, a farther candidate can have the same score |
| CandidateScoring.AmountFartherCostsAPoint | src/modules/banking-enterprise/banking-enterprise.service.ts:1121-1144 | beyond the tolerance and with all else equal a unit of amount costs a point to within a hundredth, until sixty away |
| CandidateScoring.DescriptionScoreMeans | src/modules/banking-enterprise/banking-enterprise.service.ts:1094-1113 | ten description points need containment or two common words, five need one |
| ReconciliationBook.RunKeepsConsistent | src/modules/banking-enterprise/banking-enterprise.service.ts:1335-1489 | over every run, with or without force: reconciled iff exactly one link is set, invoices only on credits and obligations only on debits, linked targets carry their marks, no target linked twice |
| ReconciliationBook.ReconcileOrphansIff | src/modules/banking-enterprise/banking-enterprise.service.ts:1454-1475 | a reconciliation leaves a reconciled invoice without transaction exactly when it replaces another invoice's link |
| ReconciliationBook.OrphanIsReached | src/modules/banking-enterprise/banking-enterprise.service.ts:1454-1475 | a reconciliation and a forced one onto another invoice leave the first invoice orphaned |
| ReconciliationBook.UnforcedRunKeepsGraph | src/modules/banking-enterprise/banking-enterprise.service.ts:1310-1489 | over runs without force an invoice is reconciled iff exactly one transaction holds it |
| ReconciliationBook.UndoReversesReconcile | src/modules/banking-enterprise/banking-enterprise.service.ts:1671-1728 | undoing a reconciliation gives back every row but the target's status |
| ReconciliationBook.HolderKeepsTarget | prisma/schema.prisma:300-301 | over every run of calls on other transactions, forced or not, a transaction keeps the target it is linked to, and every attempt on that target fails and changes nothing |
| ReconciliationBook.ReconcileIff | src/modules/banking-enterprise/banking-enterprise.service.ts:1335-1452 | a reconciliation succeeds iff the transaction is there, unreconciled unless forced, and of the kind of its target, the target is there and not deleted, and no other transaction holds it |
| ReconciliationBook.ForceAgain | src/modules/banking-enterprise/banking-enterprise.service.ts:1335-1489 | forcing a link that is there changes nothing |
| ReconciliationRaces.RunKeepsLinked | src/modules/banking-enterprise/banking-enterprise.service.ts:967-1035 | however the reads and the writes of calls interleave: reconciled iff exactly one link, and no target linked twice |
| ReconciliationRaces.CommitKeepsConsistentIff | src/modules/banking-enterprise/banking-enterprise.service.ts:1310-1489 | from a consistent book a write, whatever was read before it, leaves it consistent iff an update does not turn the kind of a row reconciled since, a reconciliation finds the kind still fitting, and an undo releases no target that another transaction holds |
| ReconciliationRaces.CommitKeepsNoOrphansIff | src/modules/banking-enterprise/banking-enterprise.service.ts:1335-1489 | a write orphans no invoice iff a reconciliation replaces no other invoice's link and an undo clears no invoice link but the one it read |
| ReconciliationRaces.UndisturbedIsSerial | src/modules/banking-enterprise/banking-enterprise.service.ts:1310-1728 | a run in which each write finds its transaction as it was read is the run of the same calls one after the other |
| ReconciliationRaces.OrphanWithoutForce | src/modules/banking-enterprise/banking-enterprise.service.ts:1335-1345 | two overlapping reconciliations of one transaction, neither forced, orphan an invoice |
| ReconciliationRaces.DebitUnderInvoice | src/modules/banking-enterprise/banking-enterprise.service.ts:974-1023 | an update that overlaps a reconciliation puts a DEBIT under an invoice link |
| AutoReconciliation.BankingService.CreateTransaction | src/modules/banking-enterprise/banking-enterprise.service.ts:910-965 | adds one unreconciled transaction without links, its description trimmed |
| AutoReconciliation.BankingService.UpdateTransaction | src/modules/banking-enterprise/banking-enterprise.service.ts:967-1035 | refuses a reconciled transaction, else changes the fields given, a description trimmed, and no other |
| AutoReconciliation.BankingService.ManualReconcile | src/modules/banking-enterprise/banking-enterprise.service.ts:1310-1489 | the new tables and every refusal, in the order the checks are made |
| AutoReconciliation.BankingService.UndoReconciliation | src/modules/banking-enterprise/banking-enterprise.service.ts:1640-1728 | the released target, the cleared links, and the refusals, on any book: a link to a row that is gone refuses the call |
| AutoReconciliation.BankingService.CalculateCandidateScore | src/modules/banking-enterprise/banking-enterprise.service.ts:1115-1154 | the score of one target from amount, date and description |
| AutoReconciliation.BankingService.CandidatesForTransaction | src/modules/banking-enterprise/banking-enterprise.service.ts:1156-1297 | at most fifty of the newest eligible targets, each with its score, ranked by score and then date |
| AutoReconciliation.FirstCandidateIsBest | src/modules/banking-enterprise/banking-enterprise.service.ts:1194-1293 | if the query was not truncated, no eligible target scores above the first candidate |
| AutoReconciliation.ListHasFifty | src/modules/banking-enterprise/banking-enterprise.service.ts:1194-1293 | the list holds all eligible targets up to fifty |
| AutoReconciliation.BankingService.AutoReconcile | src/modules/banking-enterprise/banking-enterprise.service.ts:1528-1605 | on any book, each listed transaction is matched, skipped or failed as its own attempt decides, one after the other; each match whose candidates were not truncated is of a target nearest in time, to a hundredth of a day, among the payable ones that describe it equally well; from a consistent book no attempt fails, matched targets are distinct and still linked at the end, and a skipped one has nothing left to match |
| AutoReconciliation.EligibleIff | src/modules/banking-enterprise/banking-enterprise.service.ts:1204-1286 | the candidate query finds exactly the free rows of the right kind, open status and amount within tolerance |
| AutoReconciliation.DecidedIsNearest | src/modules/banking-enterprise/banking-enterprise.service.ts:1293-1568 | what is matched, if the query was not truncated, is a nearest target among those that describe the transaction equally well |
| AutoReconciliation.NothingObviousLeft | src/modules/banking-enterprise/banking-enterprise.service.ts:1541-1605 | after a covered run no pending transaction has a payable target with two common words, or one within date tolerance and 10.005 days, 15.005 with a common word |
| AutoReconciliation.CoveredRunExhausts | src/modules/banking-enterprise/banking-enterprise.service.ts:1541-1605 | after a run that listed everything, no transaction has an eligible target of automatic score |
| AutoReconciliation.SecondRunChangesNothing | src/modules/banking-enterprise/banking-enterprise.service.ts:1541-1605 | an immediate second run with the same parameters skips everything and changes nothing |
| TokenRotation.AtMostOneSuccessor | src/auth/auth.service.ts:556-581 | under every interleaving, a token has at most one successor |
| TokenRotation.RunKeepsHistory | src/auth/auth.service.ts:527-586 | each row has one winner for good, and a revocation time is never cleared nor rewritten |
| TokenRotation.SessionsBoundedByGrants | src/auth/auth.service.ts:556-581 | for each user, live sessions plus winners in flight are at most the direct grants |
| TokenRotation.RunBudget | src/auth/auth.service.ts:645-662 | between two states, that sum grows by at most the direct grants made between them |
| TokenRotation.ReuseNeverGrants | src/auth/auth.service.ts:538-570 | a call that presents any token but a live one of an active user, a revoked one in particular, is never granted tokens, whatever else runs |
| TokenRotation.InactiveNeverGranted | src/auth/auth.service.ts:572-578 | a winner is stopped for good exactly when its user is no longer active |
| TokenRotation.TokenLasts | src/auth/auth.service.ts:645-662 | on every run after a token was issued, while its row is there, not revoked and its user active, it can be rotated exactly for thirty days |
| TokenRotation.FreshTokenLasts | src/auth/auth.service.ts:645-662 | left alone, a token issued to an active user can be rotated exactly for thirty days |
| TokenRotation.RefreshWorks | src/auth/auth.service.ts:527-581 | a refresh that nothing interrupts is granted a token exactly if the one presented can be rotated; the old row is then revoked now, the new one can be rotated, and no other row changes |
| TokenRotation.ActivityDecides | src/auth/auth.service.ts:538-578 | a token can be rotated only while its user is active, and activity of one user changes no other's |
| TokenRotation.ReuseRevokesFamily | src/auth/auth.service.ts:538-549 | a presented token leads to the statement that revokes all exactly when it is unexpired, revoked and of an active user, who then has no live session |
| TokenRotation.RevokeAllClears | src/auth/auth.service.ts:546-549 | that statement leaves the user no live session, stamps each with the time, keeps the stamps there were, and touches no other user's rows |
| TokenRotation.ReuseClosesFamily | src/auth/auth.service.ts:545-570 | until the next direct grant the user then has at most as many live sessions as winners were in flight, and none if there were none |
| TokenRotation.ReuseClosesIff | src/auth/auth.service.ts:538-581 | after the reuse of a token is detected, no run without a direct grant gives the user a live session iff none of its winners was in flight |
| TokenRotation.LogoutClosesFamily | src/auth/auth.service.ts:583-586 | a logout deletes every session of the user and no other; until the next direct grant at most the winners then in flight come back |
| TokenRotation.WinnerRevives | src/auth/auth.service.ts:556-581 | a winner in flight at either stage, its user being active, brings that user a live session that can be rotated, without a direct grant |
| TokenRotation.RevivalIsReached | src/auth/auth.service.ts:538-581 | a run from the empty table on which reuse is detected and revokes everything, and a session is live afterwards |
| RecurringBilling.RunBillsMonthly | src/modules/contracts/contract.service.ts:132-217 | whatever runners interleave with whatever dates, a contract's invoices fall in strictly increasing months |
| RecurringBilling.RunKeepsBilling | src/modules/contracts/contract.service.ts:160-194 | invoices stay, and a changed billing date is the last invoice's date |
| RecurringBilling.BeforeMonthIff | src/modules/contracts/contract.service.ts:134-147 | the date comparison of the filter means an earlier calendar month |
| RecurringBilling.StepBillsBillable | src/modules/contracts/contract.service.ts:160-194 | under every interleaving an invoice is written only for a contract that is then active, with its billing day today and not billed this month, for its amount |
| RecurringBilling.BillMeans | src/modules/contracts/contract.service.ts:160-194 | billing such a contract writes that invoice and its date, and billing any other does nothing |
| RecurringBilling.ContractService.RunBillingCycle | src/modules/contracts/contract.service.ts:128-239 | one runner alone bills exactly the active contracts whose billing day is today and that were not billed this month, each once, for its amount and in order, and nothing else, and leaves none due |
| AnomalyStatistics.AnomaliesExactly | src/insights/anomaly-detection/anomaly-detection.service.ts:69-112 | the anomalies are the positions whose score exceeds two, none in samples under five |
| AnomalyStatistics.AnomaliesRare | src/insights/anomaly-detection/anomaly-detection.service.ts:76-113 | fewer than a quarter of any sample is anomalous |
| AnomalyStatistics.ZScoreOutliersRare | src/modules/analytics/anomaly-detection.service.ts:135-148 | fewer than four in twenty-five are outliers of the other detector |
| AnomalyStatistics.ZScoreOutliersExactly | src/modules/analytics/anomaly-detection.service.ts:143-148 | the outliers are the positions whose score exceeds 2.5, none when the deviation is zero |
| AnomalyStatistics.DistanceBound | src/insights/anomaly-detection/anomaly-detection.service.ts:76-97 | no squared deviation exceeds n - 1 variances |
| AnomalyStatistics.ReachIff | src/insights/anomaly-detection/anomaly-detection.service.ts:88-97 | a sample of n values with a squared deviation above c variances exists iff n - 1 > c |
| AnomalyStatistics.SeverityNeedsSample | src/insights/anomaly-detection/anomaly-detection.service.ts:69-132 | five values are never anomalous, MEDIUM needs eleven and CRITICAL twenty-seven |
| AnomalyStatistics.SpikeSeverity | src/insights/anomaly-detection/anomaly-detection.service.ts:69-132 | those sizes are exact: one unlike value among equal ones is anomalous from six values on, MEDIUM from eleven, CRITICAL from twenty-seven, an outlier of the other detector from eight |
| CashFlowTrend.CalculateTrend | src/insights/cash-flow-projection/cash-flow-projection.service.ts:204-226 | the accumulators give the least-squares slope relative to the mean, and the test for a zero denominator never fires |
| CashFlowTrend.DenominatorPositive | src/insights/cash-flow-projection/cash-flow-projection.service.ts:221-222 | the denominator is n²(n² - 1)/12, positive from two days on |
| CashFlowTrend.LeastSquares | src/insights/cash-flow-projection/cash-flow-projection.service.ts:204-226 | every other line has a strictly larger sum of squared residuals |
| CashFlowTrend.SlopeOfLine | src/insights/cash-flow-projection/cash-flow-projection.service.ts:224-225 | on values along a line the slope is that line's |
| CashFlowTrend.TrendOfLine | src/insights/cash-flow-projection/cash-flow-projection.service.ts:204-226 | on daily totals along a line the trend times a hundred times their mean is the slope, or times a hundred when the mean is zero |
| CashFlowProjection.AggregateByDay | src/insights/cash-flow-projection/cash-flow-projection.service.ts:122-143 | one total for each day with movements, in increasing order, each the sum of that day's credits and debits, together all credits and all debits |
| CashFlowProjection.SortByDay | src/insights/cash-flow-projection/cash-flow-projection.service.ts:140-142 | sorting by day moves the map's entries and changes none |
| CashFlowProjection.TotalsPartition | src/insights/cash-flow-projection/cash-flow-projection.service.ts:122-143 | daily totals partition the credits and the debits |
| CashFlowProjection.Forecast | src/insights/cash-flow-projection/cash-flow-projection.service.ts:145-202 | each published line: the day, and the rounded income, expense and running balance computed from the last sixty days, the invoices and the taxes |
| CashFlowProjection.TrendedMoves | src/insights/cash-flow-projection/cash-flow-projection.service.ts:181-184 | projected income of days without invoices starts from the average and moves by the average times the trend a day |
| CashFlowProjection.RecentIs | src/insights/cash-flow-projection/cash-flow-projection.service.ts:152-153 | the history that counts is its last sixty days, or all if there are fewer |
| CashFlowProjection.StartsFromAverages | src/insights/cash-flow-projection/cash-flow-projection.service.ts:154-163 | the projection starts from the averages of those days, zero without history |
| CashFlowProjection.DayMeans | src/insights/cash-flow-projection/cash-flow-projection.service.ts:168-187 | a day takes its invoices where they sum to more than zero and else the trended income, its taxes and else the average expense |
| CashFlowProjection.BalanceDoesNotDrift | src/insights/cash-flow-projection/cash-flow-projection.service.ts:166-198 | on every day the published balance is within half a cent of the initial one plus all exact flows |
| CashFlowProjection.PublishedLinesClose | src/insights/cash-flow-projection/cash-flow-projection.service.ts:190-197 | it is within half a cent plus a cent a day of the sum of published lines |
| CashFlowProjection.CountedInHorizon | src/insights/cash-flow-projection/cash-flow-projection.service.ts:168-180 | over the horizon, each invoice and tax dated inside is counted on one day and the others on none |
| CashFlowProjection.ExpensesConserveTaxes | src/insights/cash-flow-projection/cash-flow-projection.service.ts:177-187 | projected expense is every tax of the horizon plus the averages of the days without one |
| CashFlowProjection.InvoicesConservedIff | src/insights/cash-flow-projection/cash-flow-projection.service.ts:172-185 | projected income is every invoice of the horizon plus the fills exactly when no day's invoices sum to less than zero |
| Rounding.Round2Close | src/insights/cash-flow-projection/cash-flow-projection.service.ts:193-197 | publishing moves an amount by at most half a cent |
| Ledger.RunKeepsWellFormed | src/modules/accounting/accounting-enterprise.service.ts:888-1128 | on every run each entry has two different codes still in the company's or the global plan, the period of its date, and a flag only if its period is locked; no account loses its company or code |
| Ledger.LockedPeriodIsFrozen | src/modules/accounting/accounting-enterprise.service.ts:900-1103 | between a lock by either locker and the next unlock, no run adds, removes, moves or alters an entry of the period, its flag aside |
| LedgerRaces.FrozenIff | src/modules/accounting/accounting-enterprise.service.ts:888-1109 | with calls taken apart into statements, the entries of a locked period stay as they are on every run that does not unlock it iff no call in progress threatens it: one whose remaining checks do not look at the period, and whose write brings an entry into it or changes one in it |
| LedgerRaces.RunKeepsSound | src/modules/accounting/accounting-enterprise.service.ts:983-1052 | however statements interleave, each entry has the period of its date and two different codes |
| LedgerRaces.CallIsItsStatements | src/modules/accounting/accounting-enterprise.service.ts:888-1109 | a call on an entry that nothing interrupts does what the ledger's call does |
| LedgerRaces.NoWriteUnchecked | src/modules/accounting/accounting-enterprise.service.ts:888-1052 | on no interleaving is a call past its checks unless its codes were found active |
| LedgerRaces.LateEntryIsReached | src/modules/accounting/accounting-enterprise.service.ts:900-930 | an entry is written into a period locked after the entry's check of it |
| Ledger.FlagsMatchIff | src/modules/finance/finance.service.ts:159-187 | the flags keep saying which periods are locked except when the second locker locks an open period with entries |
| Ledger.RunFlags | src/modules/accounting/accounting-enterprise.service.ts:1159-1262 | over every run the flags are right outside the periods that the second locker was called on and that were not unlocked since |
| Ledger.RunKeepsFlags | src/modules/accounting/accounting-enterprise.service.ts:1159-1262 | over every run without the second locker, an entry is flagged iff its period is locked |
| Ledger.WrongFlagIsReached | src/modules/finance/finance.service.ts:159-187 | books with one entry, unlocked, whose flag is wrong after the second locker ran |
| Ledger.SeedTwice | src/modules/accounting/accounting-enterprise.service.ts:786-819 | seeding again creates nothing |
| Ledger.SeedOwns | src/modules/accounting/accounting-enterprise.service.ts:786-819 | after seeding, the company owns the seeded codes and those it had |
| LedgerServices.LedgerService.CreateEntry | src/modules/accounting/accounting-enterprise.service.ts:888-930 | the new entry with its trimmed texts, or the first failing check and no change; books stay well-formed and locked periods as they are |
| LedgerServices.LedgerService.UpdateEntry | src/modules/accounting/accounting-enterprise.service.ts:983-1052 | the patched entry after both periods and both codes were checked, or no change; books stay well-formed and locked periods as they are |
| LedgerServices.LedgerService.DeleteEntry | src/modules/accounting/accounting-enterprise.service.ts:1080-1109 | the entry is removed if its period is open; books stay well-formed and locked periods as they are |
| LedgerServices.LedgerService.LockPeriod | src/modules/accounting/accounting-enterprise.service.ts:1159-1200 | one lock is added and exactly the entries of the period are flagged |
| LedgerServices.LedgerService.UnlockPeriod | src/modules/accounting/accounting-enterprise.service.ts:1224-1262 | the lock goes and exactly the entries of the period are unflagged |
| LedgerServices.LedgerService.LockFinancialPeriod | src/modules/finance/finance.service.ts:159-187 | one lock is added, or refused by the unique index, and no entry is flagged |
| LedgerServices.LedgerService.CreateAccountPlan | src/modules/accounting/accounting-enterprise.service.ts:607-651 | the new account with its trimmed name and its type, or the refusal for a code already owned or a missing parent |
| LedgerServices.LedgerService.UpdateAccountPlan | src/modules/accounting/accounting-enterprise.service.ts:676-722 | name, type, parent and activity change as given, company and code do not |
| LedgerServices.LedgerService.SeedDefaultAccountPlan | src/modules/accounting/accounting-enterprise.service.ts:762-819 | an account is created exactly for the default codes the company lacked |
| LedgerOutcomes.CreateEntryIff | src/modules/accounting/accounting-enterprise.service.ts:888-930 | an entry is created iff the company exists, the date is valid, its month open, and the trimmed codes differ and are active in the company's or the global plan |
| LedgerOutcomes.UpdateEntryIff | src/modules/accounting/accounting-enterprise.service.ts:983-1052 | an entry is changed iff it is the company's, the months of its old and new date are open and the codes it ends with differ and are active |
| LedgerOutcomes.DeleteEntryIff | src/modules/accounting/accounting-enterprise.service.ts:1080-1109 | an entry is removed iff it is the company's and its month is open |
| LedgerOutcomes.LocksIff | src/modules/accounting/accounting-enterprise.service.ts:1159-1262 | a month is locked iff it was open, by the first locker only for a company that exists, and unlocked iff it was locked |
| LedgerOutcomes.CreateAccountIff | src/modules/accounting/accounting-enterprise.service.ts:607-651 | an account is created iff the company exists and does not own its code, and the parent named is in use |
| LedgerOutcomes.RunKeepsParents | src/modules/accounting/accounting-enterprise.service.ts:607-722 | on every run each parent named by an account is a code of its company or the global plan |
| LedgerSummary.BuildEntrySummary | src/modules/accounting/accounting-enterprise.service.ts:527-566 | the per-code maps hold each code's amounts and sum to the same total on both sides, so any list is balanced |
| LedgerSummary.LockedTotalsStay | src/modules/accounting/accounting-enterprise.service.ts:527-566 | between a lock and the next unlock, every account's debit and credit total in the period is constant |
| LedgerSummary.CreatePosts | src/modules/accounting/accounting-enterprise.service.ts:888-930 | a new entry adds its amount to its debit code on the debit side and to its credit code on the credit side, and to nothing else |
| LedgerSummary.UpdatePosts | src/modules/accounting/accounting-enterprise.service.ts:983-1052 | a changed entry takes its old amount off its old codes and adds its new one to its new codes |
| LedgerSummary.DeletePosts | src/modules/accounting/accounting-enterprise.service.ts:1080-1109 | a removed entry takes its amount off its codes |
| Compliance.RunKeepsConsistent | src/modules/compliance-enterprise/compliance-enterprise.service.ts:872-953 | on every run, resolved, closed by status and stamped mean the same |
| Compliance.EngineConverges | src/modules/compliance-enterprise/compliance-enterprise.service.ts:1386-1451 | with both options on and at most a thousand open engine checks, every finding has an open check and every open engine check says what a finding says |
| Compliance.ConvergedDescriptions | src/modules/compliance-enterprise/compliance-enterprise.service.ts:1419-1440 | the descriptions of the open engine checks are then exactly those of the findings |
| Compliance.EngineConvergesIff | src/modules/compliance-enterprise/compliance-enterprise.service.ts:1424-1433 | a run converges whatever page it fetches iff the open engine checks fit the page or none is stale |
| Compliance.UnconvergedIsReached | src/modules/compliance-enterprise/compliance-enterprise.service.ts:1424-1433 | after a run on 1001 findings with different keys, a run on none can leave an engine check open |
| Compliance.SecondRunChangesNothing | src/modules/compliance-enterprise/compliance-enterprise.service.ts:1386-1451 | once converged, a run on the same findings creates and resolves nothing |
| OverlappingRuns.OverlappingEnginesIff | src/modules/compliance-enterprise/compliance-enterprise.service.ts:1386-1418 | however engine runs on given findings overlap, no two open checks come to say the same iff no two of the runs are of one company and share a finding that no open check reports |
| OverlappingRuns.EngineRunIsAlone | src/modules/compliance-enterprise/compliance-enterprise.service.ts:1386-1418 | the creating loop of a run that nothing overlaps is such a job by itself |
| Compliance.EngineSpares | src/modules/compliance-enterprise/compliance-enterprise.service.ts:1435-1449 | checks that are not stale, of any company, are never touched |
| Compliance.CallKeepsOthers | src/modules/compliance-enterprise/compliance-enterprise.service.ts:872-953 | no call changes a check of another company |
| Compliance.AddedSayFindings | src/modules/compliance-enterprise/compliance-enterprise.service.ts:1400-1413 | each check a run adds is open and has the company, name, severity and description of one of its findings |
| Compliance.StaleIsResolved | src/modules/compliance-enterprise/compliance-enterprise.service.ts:1435-1449 | a stale check of the page is resolved and stamped with the time, and keeps what it says |
| Compliance.SameDescription | src/modules/compliance-enterprise/compliance-enterprise.service.ts:533-545 | stored descriptions are equal iff source, key and detail are, if the first two hold no bracket |
| Compliance.ComplianceService.CreateCheck | src/modules/compliance-enterprise/compliance-enterprise.service.ts:863-886 | one check is added whose resolution follows its status |
| Compliance.ComplianceService.UpdateCheck | src/modules/compliance-enterprise/compliance-enterprise.service.ts:913-960 | the fields given change, and a given status decides the resolution |
| Compliance.ComplianceService.CreateChecks | src/modules/compliance-enterprise/compliance-enterprise.service.ts:1386-1418 | created and skipped together are the findings, and created are those that nothing said before |
| Compliance.ComplianceService.RunEngine | src/modules/compliance-enterprise/compliance-enterprise.service.ts:1363-1451 | the table after the two loops, and convergence |
| Compliance.BuildChecksSummary | src/modules/compliance-enterprise/compliance-enterprise.service.ts:485-531 | for any list: each check is in exactly one of four groups, the pending ones again in exactly one severity, the score is what their penalty leaves of a hundred, and full iff nothing is open or in progress |
| Compliance.IgnoredIsCountedIff | src/modules/compliance-enterprise/compliance-enterprise.service.ts:507-510 | the ignored counter is positive iff a check has that status and is not marked resolved |
| Compliance.SummaryOfRun | src/modules/compliance-enterprise/compliance-enterprise.service.ts:485-531 | on the checks of any run the ignored counter is zero and the resolved counter takes every closed check |
| OfxImport.ImportResumes | src/modules/banking/import.service.ts:46-85 | importing any prefix, as a failed run does, and then the file equals importing the file once |
| OfxImport.ImportTwice | src/modules/banking/import.service.ts:55-67 | importing a file again writes nothing |
| OfxImport.ImportKeepsUnique | src/modules/banking/import.service.ts:55-83 | FITIDs stay unique per account |
| OverlappingRuns.OverlappingImportsIff | src/modules/banking/import.service.ts:50-83 | however imports of given files overlap, FITIDs stay unique per account iff no two files name a new FITID of one account |
| OverlappingRuns.ImportIsAlone | src/modules/banking/import.service.ts:46-85 | an import that nothing overlaps is such a job by itself |
| CheckThenCreate.StaysUniqueIff | src/modules/banking/import.service.ts:55-83 | jobs that look a key up and then create its row never create a second one, on any interleaving, iff no job is about to create a row that is there and no key without a row is before two jobs |
| CheckThenCreate.CopiesAreBounded | src/modules/banking/import.service.ts:55-83 | however jobs interleave, a key gets at most one row from each job that can still create it |
| CheckThenCreate.RunKeepsRowed | src/modules/banking/import.service.ts:55-83 | every key that a job is past has a row, on every interleaving |
| OfxImport.BalanceGrows | src/modules/banking/import.service.ts:68-82 | the ledger balance grows by exactly the signed sum of the FITIDs first seen, so size and kind lose no sign |
| OfxImport.OtherBalancesStay | src/modules/banking/import.service.ts:68-82 | no other account's balance changes |
| OfxImport.ImportedRowsRead | src/modules/banking/import.service.ts:68-82 | every row an import adds has the FITID, size, side and date of an entry of the file |
| OfxImport.ImportCounts | src/modules/banking/import.service.ts:46-85 | the count is that of the rows added; an import with an incomplete entry fails, and one whose entries can all be written does not |
| OfxImport.StatementImporter.ImportOfx | src/modules/banking/import.service.ts:30-85 | the rows and the count after the loop; a failure midway keeps what was written |
| OfxImport.StatementImporter.UpsertOfx | src/modules/banking/banking.service.ts:78-124 | all entries or none are written, keyed by FITID |
| OfxImport.UpsertBalanceGrows | src/modules/banking/banking.service.ts:101-124 | the balance grows by exactly the signed sum of the FITIDs that no row has for an id |
| OfxImport.UpsertTwice | src/modules/banking/banking.service.ts:101-124 | importing a file again changes nothing |
| OfxImport.UpsertedRowsRead | src/modules/banking/banking.service.ts:101-124 | every row it adds has the FITID, size, side and date of an entry of the file, and the FITID for an id |
| OfxImport.UpsertKeepsUniqueIff | src/modules/banking/banking.service.ts:101-124 | it duplicates no transaction of the account iff the account holds none of the file's FITIDs under another id |
| OfxImport.DuplicateIsReached | src/modules/banking/banking.service.ts:101-124 | any entry that both importers write, the first one first, is held twice |
| OfxImport.UpsertRecordsAllIff | src/modules/banking/banking.service.ts:101-124 | it records every entry iff no FITID is taken by another account |
| OfxImport.DroppedEntryIsReached | src/modules/banking/banking.service.ts:101-124 | any entry written for one account is dropped from another account's file |
| OfxImport.StatementImporter.GetAccountBalance | src/modules/banking/banking.service.ts:433-454 | credits less debits is the sum of the signed amounts shown for the rows |
| OfxImport.BalanceIsSignedSum | src/modules/banking-enterprise/banking-enterprise.service.ts:311-319 | the sign shown for a row is the one the balance uses |
| TtlStore.RunIsBounded | src/modules/command-center-enterprise/command-center-enterprise.service.ts:222-235 | without empty keys a store never exceeds 101 entries |
| TtlStore.SetIsBoundedIff | src/modules/command-center-enterprise/command-center-enterprise.service.ts:222-229 | one write of the store alone keeps the bound unless the store is full, its oldest key is empty and the key is new; no service call uses an empty key |
| TtlStore.EvictionOrder | src/modules/command-center-enterprise/command-center-enterprise.service.ts:222-235 | a new key drops at most the oldest entry and the others keep their order |
| TtlStore.HitIsLastSet | src/modules/command-center-enterprise/command-center-enterprise.service.ts:209-220 | a hit returns the payload last set for its key, before that entry expires |
| TtlStore.RunHoldsLastSets | src/modules/audit-intelligence-enterprise/audit-intelligence-enterprise.service.ts:738-764 | on every run keys are distinct and each entry is the last one set under its key |
| TtlStore.Store.Get | src/modules/audit-intelligence-enterprise/audit-intelligence-enterprise.service.ts:738-749 | the entry's payload, or a miss that removes it if it expired |
| TtlStore.Store.Set | src/modules/audit-intelligence-enterprise/audit-intelligence-enterprise.service.ts:751-764 | the new entry in its place or last, after the eviction |
| CacheRuns.RisksStaleness | src/modules/command-center-enterprise/command-center-enterprise.service.ts:1612-1659 | however calls overlap, audit data in a risks answer is, when the answer is given, at most 89 997 ms old plus three times what a layer takes to compute |
| CacheRuns.StoresAreBounded | src/modules/command-center-enterprise/command-center-enterprise.service.ts:222-235 | on every run of overlapping calls both stores hold at most 101 entries under distinct keys |
| CacheRuns.HitsAreLastWrites | src/modules/command-center-enterprise/command-center-enterprise.service.ts:209-220 | on every run of overlapping calls a hit is the payload last written under its key, before it expires |
| CacheRuns.RisksSteps | src/modules/command-center-enterprise/command-center-enterprise.service.ts:1612-1659 | a risks call that nothing overlaps is a run of its steps |
| LayeredCache.BoundReached | src/modules/command-center-enterprise/command-center-enterprise.service.ts:1612-1659 | 89 997 ms is reached, with calls that take no time |
| LayeredCache.ScopesDiffer | src/modules/command-center-enterprise/command-center-enterprise.service.ts:194-207 | the two scopes of the shared store have no key in common |
| CacheKeys.CommandKeysIff | src/modules/command-center-enterprise/command-center-enterprise.service.ts:194-207 | for values without a bar, two keys of the shared store are equal iff scope, company and the four query values, defaults filled in, are |
| CacheKeys.AuditKeysIff | src/modules/audit-intelligence-enterprise/audit-intelligence-enterprise.service.ts:722-735 | the same for the keys of the audit store |
| CacheOwners.OwnAnswers | src/modules/command-center-enterprise/command-center-enterprise.service.ts:1465-1659 | on every run of overlapping calls, hit or miss at any layer, an answer holds data of the company that asked, and is of the view asked for unless the query leaves the audit list unclear |
| CacheOwners.AnsweredAsAskedIff | src/modules/command-center-enterprise/command-center-enterprise.service.ts:199-206 | a summary query is answered with the view it asks for on every run iff it gives `includeAudit` and not as false |
| CommandCenter.AuditIntelligenceService.ExecutiveView | src/modules/audit-intelligence-enterprise/audit-intelligence-enterprise.service.ts:866-931 | the audit layer: its cached payload or a fresh one, of the company that asks |
| CommandCenter.CommandCenterService.SummaryPage | src/modules/command-center-enterprise/command-center-enterprise.service.ts:1465-1610 | the summary layer over the audit layer: its answer is for the company that asks and, but for an unclear audit list, of the view asked for; no stored payload becomes older than its layer allows |
| CommandCenter.CommandCenterService.RisksPage | src/modules/command-center-enterprise/command-center-enterprise.service.ts:1612-1659 | the risks layer over the summary layer: its answer is for the company that asks and, but for an unclear audit list, of the view asked for; its age, and that of what is stored, is bounded |
| TenantScope.ReadMeaning | src/database/prisma.service.ts:242-301 | over any tree of filters without a top-level company, a rewritten read selects exactly the original rows of the tenant, live ones unless the deletion date is named |
| TenantScope.NeverForeign | src/database/prisma.service.ts:255-275 | no rewritten read, update or delete selects a row of another tenant |
| TenantScope.NamedCompanyIff | src/database/prisma.service.ts:271-274 | for each row, when a read whose filter names the company keeps its meaning within the tenant, soft-delete models included |
| TenantScope.NamedCompanyExactIff | src/database/prisma.service.ts:271-274 | over all rows it keeps its meaning iff the named condition admits the tenant or the rest of the filter selects none of its rows |
| TenantScope.RewriteTwice | src/database/prisma.service.ts:237-324 | rewriting is idempotent |
| TenantScope.RunKeepsForeign | src/database/prisma.service.ts:237-324 | over any run under one tenant, the other companies' rows stay as they are if updates name no other company and what the extension does not rewrite names the tenant by itself: an upsert in its filter and both its records, createManyAndReturn in each record |
| TenantScope.StepKeepsForeignIff | src/database/prisma.service.ts:237-324 | any statement under a tenant keeps the other companies' rows iff it is harmless: an update names no other company or reaches no row, an upsert changes no foreign row and hands no row over or else creates one for the tenant, records inserted unstamped are the tenant's |
| TenantScope.ForeignUpsertIsReached | src/modules/fiscal/invoices/invoice.service.ts:66-82 | an upsert whose filter names another company, as this one takes the company from its request, changes that company's row |
| TenantScope.HandOverIff | src/database/prisma.service.ts:255-275 | an update statement that names another company keeps the others' rows iff it reaches no row of the tenant |
| TenantScope.HandOverIsReached | src/database/prisma.service.ts:255-275 | an update without a filter that names another company gives the tenant's row to it |
| TenantScope.SoftDeleteKeepsRows | src/database/prisma.service.ts:303-321 | on a soft-delete model no statement takes a row out of the table |
| TenantScope.SoftDeleteStamps | src/database/prisma.service.ts:303-321 | a delete on a soft-delete model stamps with the time every row it means, already deleted ones included, and leaves every other row as it is |
| TenantScope.DeletedIsHidden | src/database/prisma.service.ts:277-321 | a following read of the tenant that does not name the deletion date shows exactly the rows it selects less those deleted before or by that delete |
| TenantScope.HardDeleteRemoves | src/database/prisma.service.ts:255-275 | on any other model a delete takes away exactly the rows it means |
| TenantScope.UpdateChanges | src/database/prisma.service.ts:255-275 | an update gives the rows it means the values it names and changes nothing else |
| TenantScope.CreateStamps | src/database/prisma.service.ts:243-254 | a creation under a tenant adds a row of the tenant for each record, with its values |
| TenantScope.BlockedDelete | src/database/prisma.service.ts:303-314 | a delete on a soft-delete model without its delegate changes nothing |
| TenantScope.OperationArgs.ApplyExtensions | src/database/prisma.service.ts:237-324 | the arguments after the rewriting: a delete on a soft-delete model becomes an update of the deletion date, or is blocked |
| RequestGuards.Validate | src/auth/jwt.strategy.ts:243-295 | the active company is the token's if still a membership, else the first owned, else the first, with that membership's role |
| RequestGuards.GuardsPassIff | src/common/guards/company-access.guard.ts:50-96 | the guards pass iff the request names no two companies and, if it has a user, none outside the memberships |
| RequestGuards.GuardsAgree | src/common/guards/tenant-context.guard.ts:59-122 | after both guards tenant context, request and user agree on one membership with its role, or on none if there is no membership; without a user, context and request agree on the first company named, which nothing was checked for |
| RequestGuards.GuardsTwice | src/common/guards/company-access.guard.ts:50-96 | running the pair twice equals running it once, with a user or without |
| RequestGuards.SkipAgreesIff | src/common/guards/tenant-context.guard.ts:85-113 | with the check skipped the same requests pass and no tenant is set, which agrees with the request iff that names no company or has no user |
| RequestGuards.RequestContext.ResolveTenant | src/common/guards/tenant-context.guard.ts:59-122 | the request and the tenant store after the first guard |
| RequestGuards.RequestContext.AuthoriseCompany | src/common/guards/company-access.guard.ts:50-96 | the request and the user after the second guard |
| RequestGuards.RequestContext.Authorise | src/common/guards/company-access.guard.ts:50-96 | the guards one after the other; a refusal by the second keeps what the first one set |
| Cnpj.CompletionIff | src/common/validators/cnpj.util.ts:21-48 | each base has exactly one accepted pair of digits, unless all characters are equal |
| Cnpj.ValidMeans | src/common/validators/cnpj.util.ts:21-48 | a well-formed number is accepted iff its characters are not all equal and each check digit completes its weighted sum to a multiple of eleven, zero standing for ten |
| Cnpj.SumByHand | src/common/validators/cnpj.util.ts:39-47 | the two sums with their weights written out |
| Cnpj.AlphanumericNumberKnown | src/common/validators/cnpj.util.spec.ts:22-33 | the alphanumeric number of the tests is accepted and its neighbour refused |
| Cnpj.CaseIgnored | src/common/validators/cnpj.util.ts:11-15 | a letter is accepted in either case alike |
| Cnpj.RepeatedRefused | src/common/validators/cnpj.util.ts:36-37 | fourteen times the same character is refused |
| Cnpj.AllEqualMatchIff | src/common/validators/cnpj.util.ts:36-41 | of the numbers with all characters equal only the zeros have matching digits, so the rule against them rejects one number |
| Cnpj.SubstitutionIff | src/common/validators/cnpj.util.ts:17-48 | with a non-zero check digit, a changed base character passes iff the two values differ by a multiple of eleven |
| Cnpj.ZeroSubstitutionIff | src/common/validators/cnpj.util.ts:21-48 | with both check digits zero, exactly which changed base character passes |
| Cnpj.DigitChangeCaught | src/common/validators/cnpj.util.ts:21-48 | with a non-zero check digit, changing one digit to another, a check digit included, is always rejected |
| Cnpj.CatchesDigitChangesIff | src/common/validators/cnpj.util.ts:21-48 | a valid numeric number rejects every change of one digit iff a check digit is not zero, or its sums have the same remainder, or three of its digits are the ones with nothing in reach |
| Cnpj.SwapIff | src/common/validators/cnpj.util.ts:21-48 | with a non-zero check digit, swapped neighbours pass iff their values differ by a multiple of eleven |
| Cnpj.ZeroSwapIff | src/common/validators/cnpj.util.ts:21-48 | with both check digits zero, exactly which swap of neighbours passes |
| Cnpj.CatchesSwapsIff | src/common/validators/cnpj.util.ts:21-48 | a valid numeric number rejects every swap of two unlike neighbours iff a check digit is not zero, or the remainders of its sums differ, or no neighbours are exchangeable |
| Cnpj.ZeroDigitsMiss | src/common/validators/cnpj.util.ts:21-48 | an example of the failing case: two valid numbers one digit apart |
| Cnpj.PunctuationIgnored | src/common/validators/cnpj.util.ts:11-15 | a punctuation character anywhere does not change validity |

## Left out

- ReconcileTaxObligations: what the caller is told after the rollback is not modelled: the loop catches the error of the failing statement, and the transaction is aborted by then.
- UndoReversesReconcile: states the restored links and flags; an undo writes NORMAL or PENDING whatever the status was before.
- DetectAnomalies: the square root is the runtime's, so the standard deviation is a parameter, characterised by its square; the descending sort of the results is not modelled.
- DetectZScoreOutliers: takes the standard deviation as a parameter in the same way.
- Forecast: the limits on the number of rows each query returns are not modelled; days are integers.
- RunKeepsForeign: a statement writes one table; nested writes through relations and raw SQL are not modelled.
- RisksStaleness: assumes signal queries without the module and action filters that the audit key omits.
- OwnAnswers: company ids and query values that hold a bar are not covered, in CommandKeysIff and AuditKeysIff neither; the keys are not quoted.
- Isolation: calls overlap in token rotation, billing, the caches, entries against period locks, reconciliation, imports and engine runs; elsewhere each call runs alone, and a database transaction is one step everywhere.
- FrozenIff: the account plan is left to the environment, which may accept or refuse the codes of an entry; which calls would be refused for their codes is not part of the condition.
- OverlappingImportsIff: the files' entries can all be written; an import that stops early creates no more than one that goes on.
- OverlappingEnginesIff: checks that are resolved while runs overlap are not covered.
- Write failures inside an open transaction, other than the unique indexes on links and locks.
- Floating-point effects; rounding is modelled only where an amount is published or a score is rounded.
- Calendars and lower-casing come in as functions; the local calendar of billing is a tuple of year, month, day and time.
- Access checks by company and role inside the services, audit records, financial events, row versions and metadata.
- The second biller in the revenue module, the legacy reconciliation service and the tax-obligation link of the banking service, which keep other rules.
- Acyclicity of account parents, which an update does not check.
- The counters by severity and status of the checks summary, which are tallied like the ones modelled.
- Row-level security settings, the throttler and the roles guard.
- Statement parsing, the recorded statement balance and the automatic match that follows an import.
- Controllers, request validation, scheduling and the catalogue and seed tables.
