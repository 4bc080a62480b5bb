# Models of the family-office records

The `lib/` directory of the application keeps a family office's books as in-memory state
machines and projections in exact cents. This project models six of them in Dafny and proves
what they promise.

**Look-through risk.** `RiskContract` says what an acceptable ownership graph is, by walks
alone; `RiskValidator` is the validator as a class with its maps, its depth-first search, its
memo and its saturating count. `Allocation` is the largest-remainder split of cents,
`Exposure` the recursion that splits a holding's value down the graph, `ExposureBuilder` the
same recursion as it runs, pushing lots and counting calls. `Grouping`, `ExposureGroups` and
`Stress` aggregate the lots; `RiskScope` prunes the graph to a selection. `LotContent` says what
each lot must say and carry, from its path alone; `ExposureViews` and `StressContent` do the same
for the rows built from the lots and for a stressed lot.

**Ledger.** `LedgerState`, `LedgerPosting` and `LedgerCommands` are the state, the postings and
the commands. Over them: what one step may do (`LedgerRuns`), balances as replays of the record
(`LedgerReplay`), the life of a transaction (`LedgerLives`), notices and what is reserved on
them (`LedgerNotices`), reconciliations (`LedgerReconciliation`), and the whole as an object and
over runs (`LedgerBook`). `LedgerSettlement` says, leg by leg, what a settlement and a reversal move;
`LedgerRecords` what is then on record of every balance; `LedgerAdmission`, `LedgerDecisions` and
`NoticeDecisions` say exactly when each command is accepted
and what it then records.

**Period reports.** `Reporting` is the report, `ReportContent` and `LiquidityContent` what its
figures are in terms of the ledger's records, `ReportingScope` the proof that projecting the
workspace to a scope first does not change it.

**History.** `History` resolves the rows of one holding and date, `HistoryProjection` the whole
timeline, `HistoryMoney` the text form of amounts. `CorrectionLog` is what the lifecycle and
participation logs share; `Lifecycle`, `Participation` and `ParticipationShares` build on it,
with `Ordering` for sorted lists and `Register` for the holdings they refer to. `HistoryPoints`
answers a query from both: cohort, points, positions, and what a cutoff hides. `HistoryStatus` and
`HistoryCohort` say which marks count and which positions a point holds, from the records in force;
`HistoryDecisions` when a declaration is accepted; `ParticipationContent` what the participation
response lists.

**Reporting calendar.** `Calendar`, `Obligations`, `ObligationPeriods`, `CatchingUp`, `Exceptions`
and `ObligationBook`; `DeliveryReview` follows each owed report's exception through an evaluation,
`CalendarDecisions` says when schedules, ranges and decisions are accepted.

**Worker leases and returns.** `WorkerLease` interleaves the transactions of any number of
document workers, `WorkerRetries` bounds what their steps do to a queue row; `Returns` is the daily
index and the time-weighted return, `ReturnsContent` what a day and its index say.

Conventions: money is integer cents, weights, rates and returns are reals, dates are day
numbers, instants are integers. A transaction of the database or a loop over mutable records is
a method proved against a function; code that clones its state and returns a new one is that
function. Errors are values, and every error path is kept.

Where the code and a promise about it part ways, the code is modelled. A queued job does not
always keep its queue row: an attempt whose start transaction throws leaves the job queued, the
failure transaction then updates only a processing job (`scripts/worker.ts:332-336`) but still
deletes the queue row (`scripts/worker.ts:353-356`). `WorkerLease.QueuedRowsKeptExactly` is the
exact condition, `WorkerLease.RunsKeepRowsExactly` lifts it to runs, and
`WorkerLease.TroubledStartsOrphan` is the run that shows it. A scoped report is
refused when a selected entity owns nothing, because the scoped register drops it
(`lib/reporting.ts:622`); `ReportingScope.ScopeChangesNothingExactly` makes that the only case.

## Model

| member | source | states |
|---|---|---|
| RiskValidator.Validator.Validate | lib/risk-contract.ts:77-159 | the validator raises no issue exactly when the graph is well formed, no ownership walk has more than 20 nodes, and the positive-weight paths below all mapped holdings number at most 20,000; on acceptance the memo holds a depth from 1 to 20 for every node |
| RiskValidator.Validator.IndexNodes | lib/risk-contract.ts:79-80 | the node index knows exactly the nodes of the file, and an issue is raised exactly when two nodes share an identifier |
| RiskValidator.Validator.IndexLinks | lib/risk-contract.ts:88-102 | the children index lists each fund's links in file order, and the loop stays silent exactly when every link runs from a known fund to a known node and no parent/child pair repeats |
| RiskValidator.Validator.Depth | lib/risk-contract.ts:112-126 | the recursive search terminates on any graph, never revises a finished depth, keeps every stored depth an upper bound on the walks below it, and, when no cycle has been flagged, returns the stored depth together with a walk of exactly that length; a flagged cycle is a real one |
| RiskValidator.Validator.MemoIsLongest | lib/risk-contract.ts:110-126 | every stored depth is the true longest path: no walk from the node is longer and some walk has that length |
| RiskValidator.Validator.CheckDepth | lib/risk-contract.ts:127-132 | "too deep" is reported only when a walk of more than 20 nodes exists; without it and without a cycle, every node of every component has been measured |
| RiskValidator.Validator.CountPaths | lib/risk-contract.ts:137-148 | the memoised count is the true number of positive-weight walks, cut off at 20,001 |
| RiskValidator.Validator.CheckPaths | lib/risk-contract.ts:149-157 | saturating does not change the verdict: the error is raised exactly when the true total over all positions exceeds 20,000 |
| RiskContract.CycleUnbounded | lib/risk-contract.ts:113-116 | a closed walk can be followed round to a walk longer than any bound |
| RiskContract.BoundedIsAcyclic | lib/risk-contract.ts:127-133 | hence a graph whose walks are bounded has no cycle; with `Validate`, every accepted graph is acyclic |
| RiskContract.PathsStable | lib/risk-contract.ts:138-148 | the number of walks below a node does not depend on the depth allowed, once the longest walk fits |
| Allocation.Allocate | lib/risk-engine.ts:142-162 | the in-place loop hands out exactly the specified shares, and the residual is what the disclosed weights do not claim |
| Allocation.HandOut | lib/risk-engine.ts:156-160 | giving one cent at a time until the leftover runs out raises exactly a prefix of the remainder order |
| Allocation.SharesConserve | lib/risk-engine.ts:142-162 | the shares sum to the rounded disclosed part, which lies between zero and the amount, so shares plus residual are the amount to the cent |
| Allocation.ShareIsFloorOrCeiling | lib/risk-engine.ts:146-147 | each share is non-negative and within less than a cent of the exact share; a link of zero or undisclosed weight receives nothing |
| Allocation.ReceivingNeedsWeight | lib/risk-engine.ts:156-160 | only a link of positive weight ever receives a cent |
| Allocation.SharesMinimiseError | lib/risk-engine.ts:150-160 | no list of whole cents with the same sum has a smaller total rounding error |
| Allocation.CutIsLeftover | lib/risk-engine.ts:149-160 | the leftover never exceeds the number of links that still have a fraction, so the loop never stops short |
| Exposure.ExpandConserves | lib/risk-engine.ts:365-456 | expanding any node of an expandable graph yields lots that sum to exactly the cents passed in |
| Exposure.VisitsBounded | lib/risk-engine.ts:365-372 | the calls one expansion makes are at most the static number of positive-weight walks below its node |
| Exposure.ExpandDistinct | lib/risk-engine.ts:313-432 | all lots of one expansion have different identifiers |
| Exposure.ExpandLabelled | lib/risk-engine.ts:317-364 | every lot names the holding it came from and a path that extends the path it was reached by |
| ExposureBuilder.Expander.Visit | lib/risk-engine.ts:365-456 | the mutating recursion refuses exactly when the specified number of calls would pass 20,000; otherwise it appends exactly the specified lots and counts exactly those calls |
| ExposureBuilder.Expander.EmitLot | lib/risk-engine.ts:317-364 | emitting raises the sum of all lots by exactly the amount; a zero amount leaves no lot, any other leaves one, of that holding, family and path, with no issuer unless it is resolved; a resolved lot of an asset carries that asset's issuer, an unresolved one or a fund's none |
| ExposureBuilder.StaticCountBoundsVisits | lib/risk-contract.ts:149-157 | the validator's total bounds the calls made over all holdings together, whatever subset of the mapped holdings is expanded |
| ExposureBuilder.HoldingConserves | lib/risk-engine.ts:457-484 | one holding's lots, mapped or not, sum to its NAV and have distinct identifiers |
| ExposureBuilder.PortfolioFacts | lib/risk-engine.ts:296-484 | over a whole portfolio all lot identifiers are distinct, every lot belongs to one of the holdings, and the lots sum to total NAV |
| ExposureBuilder.PerHoldingConserves | lib/risk-engine.ts:296-484 | picked out of the whole portfolio, each valued holding's lots still sum to exactly its NAV |
| ExposureBuilder.ExpandHoldings | lib/risk-engine.ts:296-484 | the loop over holdings fails exactly when the specified calls exceed 20,000 and otherwise returns the specified lots |
| ExposureBuilder.BuildTotalExposure | lib/risk-engine.ts:164-600 | it succeeds exactly for an accepted graph within the size limits, valid holdings and a valid date; the 20,000-path error and the failed-to-reconcile error are unreachable, and the lots sum to total NAV; what each lot says is `LotContent.ExposureSays` |
| LotContent.ExposureSays | lib/risk-engine.ts:317-484 | every lot of the exposure belongs to one valued holding; if mapped, its path starts at the mapped node, follows links, and ends at a node n: a resolved lot has an asset n and exactly n's issuer, an unresolved one a fund n and no issuer; sector, country and currency are n's, manager and asset class those of the last node on the path that states one, else the holding's; an unmapped holding gives one unresolved lot with the holding's class and manager |
| LotContent.ExpandPasses | lib/risk-engine.ts:365-456 | the lots on or below any path carry exactly the cents that the allocations along that path hand down |
| LotContent.HoldingPasses | lib/risk-engine.ts:457-484 | the same for a holding, from its mapped node: value is never moved to another branch |
| LotContent.AcceptedSizes | lib/risk-engine.ts:164-221 | exactly which sizes and amounts the engine accepts |
| ExposureGroups.GroupLots | lib/risk-engine.ts:106-139 | the rows partition the lots by key, each row total is the sum over its key, and no row is empty |
| ExposureGroups.AllGroupings | lib/risk-engine.ts:521-549 | all seven groupings sum to the same lots |
| ExposureViews.GroupsSay | lib/risk-engine.ts:106-139 | no two rows share a key; each row is the value, the paths and the distinct holdings of exactly the lots that fall in it, and every lot falls in one |
| ExposureViews.SelectorsAre | lib/risk-engine.ts:521-549 | which field of the lot each of the seven groupings goes by |
| Grouping.GroupBy | lib/risk-engine.ts:111-120 | filling a Map row by row gives each key, in first-seen order, exactly its members in order |
| Grouping.GroupsPartition | lib/risk-engine.ts:106-139 | group totals over all keys add up to the total over all rows |
| ExposureGroups.FamilyBases | lib/family-exposure.ts:48-87 | one basis per family that has a holding, with its reported value and exactly its own visible lots |
| ExposureGroups.FamilyConserves | lib/family-exposure.ts:48-87 | a family's lots sum to the reported value of its holdings |
| ExposureViews.BasisSays | lib/family-exposure.ts:48-97 | a family's basis is its known value, the lots of its own selected holdings and how many of its holdings have no value |
| ExposureViews.FamilyLotsAre | lib/family-exposure.ts:48-97 | a family sees exactly the lots that carry its name and come from a selected holding of its own |
| ExposureGroups.FamilyIssuerExposure | lib/family-exposure.ts:99-139 | direct plus indirect exposure is the family's whole exposure to the issuer, and the families add up to all lots of that issuer |
| ExposureGroups.MatchedIsIssuerGroup | lib/family-exposure.ts:106-108 | those lots are worth exactly the issuer's group in the portfolio view |
| ExposureGroups.ManagerIssuerMatrix | lib/family-exposure.ts:212-282 | the cells plus the omitted amount sum to all lots, with one cell for each manager and issuer that occur together |
| ExposureViews.CellSays | lib/family-exposure.ts:212-282 | a cell adds up exactly the resolved lots of its manager and issuer, over their distinct holdings |
| ExposureViews.OmittedIs | lib/family-exposure.ts:212-282 | what is left out is exactly the lots without a manager, without an issuer, or unresolved |
| Stress.RunStressScenario | lib/risk-engine.ts:630-732 | refused exactly when a shock, the call rate or the number of overrides is out of bounds or the euro is shocked; otherwise loss is value before less value after, and the contributor rows by holding and by issuer both sum to it |
| Stress.LossWithinValue | lib/risk-engine.ts:660-668 | no lot falls below zero and none loses more than its value |
| Stress.DeeperNeverRaises | lib/risk-engine.ts:634-668 | deepening the shocks on the same keys never raises a lot's value and never changes which shock applies |
| Stress.DeeperTotals | lib/risk-engine.ts:676-678 | hence a deeper scenario never lowers the total loss |
| Stress.StressGroups | lib/risk-engine.ts:602-628 | each contributor row's loss is its before less its after, and rows partition the stressed lots |
| Stress.FamilyStressExposure | lib/family-exposure.ts:152-194 | per family, known value less value after is its loss, and the family losses sum to the portfolio loss |
| StressContent.LotsAreStressed | lib/risk-engine.ts:634-668 | each lot's new value is the exact product rounded half up, with one value shock (its issuer's, else its sector's, else its asset class's, else none) compounded with one currency shock, and its shock source names the one used |
| StressContent.StressedOnce | lib/risk-engine.ts:634-668 | those rules leave one outcome for each lot |
| StressContent.IssuerShields | lib/risk-engine.ts:634-650 | a shock to a lot's issuer replaces whatever its sector and asset class would suffer |
| StressContent.TotalLossLeavesNothing | lib/risk-engine.ts:634-668 | the loss of everything leaves nothing, whatever the currencies do |
| StressContent.LossIsFromReachedLots | lib/risk-engine.ts:660-678 | the whole loss is the loss of the lots that some shock names |
| StressContent.AcceptedScenarios | lib/risk-engine.ts:634-678 | exactly which scenarios are accepted |
| RiskScope.ScopedRiskData | lib/reporting.ts:666-690 | the fixpoint loop terminates with exactly the nodes reachable from the selected positions, and returns the graph filtered to them |
| RiskScope.PruningKeepsLots | lib/data-scope.ts:96-127 | expanding the pruned graph gives a selected holding the same lots, path by path and cent by cent |
| RiskScope.PruningKeepsPortfolio | lib/reporting.ts:666-690 | the same for any list of selected holdings |
| RiskScope.PruningKeepsAcceptance | lib/reporting.ts:666-690 | pruning an accepted graph leaves an accepted graph |
| LedgerState.ScaleRoundsHalfUp | lib/ledger.ts:85-88 | a converted amount is within half a cent of the exact product |
| LedgerState.ConvertInBounds | lib/ledger.ts:54-89 | a conversion that succeeds is a permitted amount |
| LedgerState.Summarise | lib/ledger.ts:227-295 | the summing loop gives the specified settled, reviewed, remaining and unallocated amounts and missing details |
| LedgerPosting.ApplyPostings | lib/ledger.ts:873-951 | posting one by one gives the specified state, or the first refusal and no change |
| LedgerRuns.StepShape | lib/ledger.ts:952-1655 | every accepted command opens one holding, records one mark, posts one event, or leaves the books alone; entities and accounts are only added |
| LedgerRuns.ShapeKeepsHoldings | lib/ledger.ts:873-951 | balances stay within their limits, identities never change, and events and marks are only appended |
| LedgerRuns.BooksKept | lib/ledger.ts:952-1655 | together with strictly increasing times and unique identifiers this holds after every step |
| LedgerReplay.ApplyReplays | lib/ledger.ts:873-951 | applying an event changes each balance exactly as replaying its postings on that balance alone |
| LedgerReplay.StepReplays | lib/ledger.ts:952-1655 | after every step each balance is the replay of all recorded events and marks from its opening |
| LedgerReplay.CostIsOpeningPlusPostings | lib/ledger.ts:900-945 | in a replay, cost and commitment are the opening plus all postings; marks do not touch them |
| LedgerReplay.BalanceIsMarkPlusPostings | lib/ledger.ts:500-626 | native amount and EUR value are the last applied mark plus the postings recorded after it, or the opening plus all postings |
| LedgerLives.LivesStep | lib/ledger.ts:1440-1576 | a transaction is settled at most once, and reversed at most once after that, with exactly the opposite postings and flow |
| LedgerLives.LivesKept | lib/ledger.ts:1440-1576 | every command keeps that life cycle for every transaction |
| LedgerLives.ReversedNetsToZero | lib/ledger.ts:1538-1546 | a reversed transaction has moved nothing, on any holding, in any of the four amounts, nor any external flow |
| LedgerLives.TxsKept | lib/ledger.ts:659-800 | every recorded transaction keeps a positive amount that converts to its EUR amount, exactly the legs its kind calls for, all of one owner, and a unique identifier |
| LedgerLives.OwnedKept | lib/ledger.ts:692-800 | every event posts only to holdings that are legs of its own transaction |
| LedgerLives.EventStaysWithOwner | lib/ledger.ts:659-713 | hence all postings of one event stay within one legal entity and family |
| LedgerLives.PostingsTotal | lib/ledger.ts:801-872 | a transfer, capital call or purchase moves no total EUR value, a transfer moves no total cost, and the other kinds move only what they bring in, take out or realise; each leg is pinned by `LedgerSettlement.Settles` |
| LedgerLives.SettlementMovesTotal | lib/ledger.ts:1484-1575 | settling changes the sum of all recorded EUR values by exactly that amount |
| LedgerNotices.NoticesKept | lib/ledger.ts:390-447 | in every step: settled plus reviewed never exceed a notice, a cancelled or unquantified notice holds nothing, live allocations match the notice's holding, kind, currency and due date, and every link leads to a notice |
| LedgerNotices.SettlementKeepsUnallocated | lib/ledger.ts:227-295 | settling leaves every notice's unallocated amount alone and lowers what remains by exactly the linked amount |
| LedgerNotices.ReversalRestoresRemaining | lib/ledger.ts:227-295 | reversing raises both by exactly the linked amount |
| LedgerReconciliation.RecordedIsCurrent | lib/ledger.ts:1577-1651 | a reconciliation is current the moment it is recorded |
| LedgerReconciliation.ReplayRelevant | lib/ledger.ts:1657-1692 | a balance depends only on the events and marks that concern it |
| LedgerReconciliation.CurrentReproducesStatement | lib/ledger.ts:1657-1692 | while a reconciliation is current, replaying only postings and marks dated within its end reproduces every statement closing balance, native and EUR |
| LedgerReconciliation.DatesKept | lib/ledger.ts:873-951 | after every step no cash posting and no mark is dated after its holding's valuation date |
| LedgerBook.StepKeepsSound | lib/ledger.ts:952-1655 | one step, accepted or refused, keeps all of these invariants at once |
| LedgerBook.RunsStaySound | lib/ledger.ts:952-1655 | so does every run of commands from an unrecorded workspace |
| LedgerBook.ReachableBalances | lib/ledger.ts:873-951 | in every reachable ledger each balance is in bounds, and cost and commitment are opening plus all postings |
| LedgerBook.ReachableValue | lib/ledger.ts:449-626 | in every reachable ledger native amount and EUR value stand on the last applied mark |
| LedgerBook.ReachableStatements | lib/ledger.ts:1657-1692 | in every reachable ledger every current reconciliation reproduces its statement |
| LedgerBook.Ledger.Apply | lib/ledger.ts:952-1655 | the mutating entry point takes the specified step or reports the specified error and changes nothing; the settlement part of the step is `LedgerSettlement.Settles`, its acceptance `LedgerAdmission.SettlesExactly` |
| LedgerBook.DecidedOutcome | lib/ledger.ts:1548-1575 | a decided settlement or reversal records evidence, postings leg by leg and the event together, or nothing |
| LedgerSettlement.Settles | lib/ledger.ts:1484-1575 | settling records one event and moves every balance, in native amount, EUR value and cost, by its legs; commitments move by exactly the commitment amount, down for a call that says so, up for a recallable distribution, and not at all otherwise; the external flow is the amount for a deposit, its negative for a withdrawal, zero for the rest |
| LedgerSettlement.CashLeg | lib/ledger.ts:801-872 | the cash leg: deposits, distributions and sales bring in amount, value and equal cost; the other kinds take out amount, value and a rounded share of the cost |
| LedgerSettlement.DestinationLeg | lib/ledger.ts:801-872 | the second balance of a transfer receives what the first one pays, cost included |
| LedgerSettlement.InvestmentLeg | lib/ledger.ts:801-872 | the investment leg: calls and purchases bring in carrying value and cost, distributions and sales take out the stated carrying value and cost |
| LedgerSettlement.CommitmentLegs | lib/ledger.ts:860-868 | a reducing call lowers the investment's commitment by its commitment amount, a recallable distribution raises it by that, and every other leg of every other kind leaves all commitments alone |
| LedgerSettlement.LegsApart | lib/ledger.ts:801-872 | no two legs are on the same holding, and no other holding is moved |
| LedgerSettlement.Reverses | lib/ledger.ts:1515-1575 | a reversal takes back what the recorded settlement moved on every balance, and its external flow |
| LedgerRecords.SettlementRecords | lib/ledger.ts:873-951 | a settlement records every leg on its own balance: cash stands on the day and the new evidence, an investment keeps its mark and carries the capital moved since, its method says so until that capital is gone again, and the day's row has the new value and the boundary flow of the first leg; every other balance and row stays as it was |
| LedgerRecords.ReversalRecords | lib/ledger.ts:1515-1575 | a reversal records the same of the first settlement's postings with their signs turned |
| LedgerRecords.TakenBack | lib/ledger.ts:915-930 | a posting taken back leaves the capital carried since the mark, and all four figures, as they were before it |
| LedgerSettlement.OtherLegs | lib/ledger.ts:801-872 | a balance that is no leg of the transaction is not moved |
| LedgerAdmission.ValidExactly | lib/ledger.ts:659-800 | a transaction is valid exactly when its account, cash balance, investment, destination, costs and commitment meet the stated conditions |
| LedgerAdmission.AppliesExactly | lib/ledger.ts:873-951 | postings to different holdings apply exactly when each of them fits the balance it meets, by native amount, value, cost, commitment, bounds and date |
| LedgerAdmission.PostingsExactly | lib/ledger.ts:801-872 | settlement postings exist exactly when the transaction is still valid, cash stands at its rate, and its carrying value converts |
| LedgerAdmission.SettlesExactly | lib/ledger.ts:1440-1575 | a settlement is accepted exactly when the transaction is only reviewed, neither the day nor its rate lies ahead, its notice still allows the amount, it cites known evidence and every leg fits where it lands |
| LedgerDecisions.ReversesExactly | lib/ledger.ts:1515-1575 | a reversal is accepted exactly when the transaction is settled, no mark of a balance it moved was recorded since, and each of its postings can be taken back on that day |
| LedgerDecisions.VoidsExactly | lib/ledger.ts:1453-1483 | voiding records one event without postings, and exactly while the transaction is only reviewed |
| LedgerDecisions.RecordsExactly | lib/ledger.ts:1405-1439 | a transaction is recorded exactly when it converts, is valid and respects open notices, with its value at the stated rate |
| LedgerDecisions.ValuesExactly | lib/ledger.ts:449-626 | a valuation is accepted exactly when it may replace what is on record for its date, and what it then changes |
| LedgerDecisions.ValuationIs | lib/ledger.ts:560-626 | an accepted valuation adds one mark and the row of its day; the balance takes it over, with no capital pending, unless a later mark stands; nothing else changes |
| LedgerDecisions.RecordsValuationExactly | lib/ledger.ts:1380-1404 | a valuation entered by hand is one from its own new evidence |
| LedgerDecisions.ReconcilesExactly | lib/ledger.ts:1577-1651 | a reconciliation is recorded exactly when the statement covers the entity's cash and agrees with the books |
| NoticeDecisions.ClaimsExactly | lib/ledger.ts:390-447 | a transaction that names no notice must match no open one; one that does must match its kind, holding, currency and date, and with it no more than the notified amount is reviewed or settled |
| NoticeDecisions.AcceptsExactly | lib/ledger.ts:297-357 | a notice is taken in exactly when it is about an investment, comes from accepted evidence of it and is not known yet; it is recorded as written |
| NoticeDecisions.AmendsExactly | lib/ledger.ts:1056-1128 | a notice is amended exactly while it is open, nothing reviewed or settled pays it and it was amended fewer than 100 times; only its terms and that count change |
| NoticeDecisions.CancelsExactly | lib/ledger.ts:1085-1128 | an open notice that nothing pays is cancelled, as a mistake or as a duplicate of another open one of the same kind and holding, and only that changes |
| NoticeDecisions.TellsApartExactly | lib/ledger.ts:1063-1084 | two notices are told apart as they now read, and only while they might be the same |
| NoticeDecisions.LinksExactly | lib/ledger.ts:973-1007 | a reviewed or settled transaction that pays no notice yet is linked exactly when it matches the notice and fits in what is left of it |
| NoticeDecisions.RegistersExactly | lib/ledger.ts:1008-1055 | a cash event read from a document becomes a notice only if it was reported, had no effect and has one holding |
| NoticeDecisions.CreatesEntityExactly | lib/ledger.ts:1193-1228 | an entity is created exactly for a known family, on known evidence, under a name the family does not use yet |
| NoticeDecisions.CreatesAccountExactly | lib/ledger.ts:1229-1257 | an account is created exactly for a known entity under a new name; it belongs to the entity's family and its restriction is known |
| NoticeDecisions.ReviewsExactly | lib/ledger.ts:1129-1175 | an account is reviewed exactly in the currency of its cash, on known evidence, at most 100 times |
| NoticeDecisions.StepNeedsRoom | lib/ledger.ts:952-972 | no command runs without an actor, nor past the size of the ledger |
| Reporting.Liquidity | lib/reporting.ts:215-386 | updating group records in place gives each entity and currency the sums of exactly its contributions |
| ReportContent.ReportIs | lib/reporting.ts:388-593 | the selected marks at the end are those at the start, plus the result, plus the flows of the events dated after the start up to the end that touch a selected holding; there is a result exactly when every mark is sourced, every entity is attested, there is cash and every residual is zero |
| ReportContent.PeriodReportIs | lib/reporting.ts:388-593 | the same of every report that is given, with one row for each selected holding, flow and cash balance |
| ReportContent.ReportLists | lib/reporting.ts:412-518 | rows, flows and cash rows are exactly those of the selection, in order, each with its own marks, postings and residual |
| ReportContent.RefusedExactly | lib/reporting.ts:388-411 | a report is refused exactly for unordered or future dates, a horizon past ten years, or an unknown scope |
| ReportContent.SelectionIs | lib/reporting.ts:31-61 | the selection holds each holding of the families asked for, of those entities if any are named |
| ReportContent.SourcedMarkIs | lib/reporting.ts:91-181 | a sourced mark is the evidenced valuation of the day, else a closing balance of the last current reconciliation ending that day, else the balance itself when it stands on that day, is evidenced and holds no capital moved since; never anything else |
| ReportContent.ResultsAdjoin | lib/reporting.ts:525-572 | the results of two adjacent periods add up to the result of both |
| ReportContent.FlowsAdjoin | lib/reporting.ts:436-455 | the flows of two adjacent periods add up to those of both |
| ReportContent.EstimateIs | lib/reporting.ts:184-213 | the estimate times the capital at work is the result times 100; it is given exactly when there is a result and that capital is positive, and the reported denominator is that capital to the nearest cent |
| ReportContent.CapitalWithoutFlows | lib/reporting.ts:184-213 | without a flow before the last day the capital at work is the opening value |
| LiquidityContent.TableIs | lib/reporting.ts:215-386 | one row for each entity and currency that occurs; each adds up its cash balances and its legs of what is due, overdue or blocked, and gives a projection exactly when every balance, restriction and liquidity is known and nothing is blocked |
| LiquidityContent.CashOnIs | lib/reporting.ts:258-293 | the recorded cash of a day is the balance itself if it stands by then, else the last mark by then, if it is sourced, plus the postings since |
| LiquidityContent.LegIsPosted | lib/reporting.ts:291-345 | a leg of what is due is what its settlement posts to that balance |
| LiquidityContent.ProjectionSettlesDue | lib/reporting.ts:291-386 | the projected availability is what the unrestricted balances come to once everything due in the horizon has settled |
| ReportingScope.RegisterKept | lib/ledger.ts:1193-1257 | every command keeps entity identifiers unique and every holding with a registered entity of its own family |
| ReportingScope.StatusKept | lib/reporting.ts:605-641 | a kept transaction has the same status among the kept events |
| ReportingScope.CurrentAlike | lib/reporting.ts:643-661 | with its counters moved to the kept prefixes, a kept reconciliation is current exactly when the original is |
| ReportingScope.SourcedAlike | lib/reporting.ts:91-181 | a selected holding has the same sourced mark in the scoped inputs |
| ReportingScope.FlowsAlike | lib/reporting.ts:388-593 | the external flows of the period are the same |
| ReportingScope.CashRowsAlike | lib/reporting.ts:388-593 | the cash movement rows are the same |
| ReportingScope.CoveredAlike | lib/reporting.ts:388-593 | the reconciliation coverage of the period is the same |
| ReportingScope.ContributionsAlike | lib/reporting.ts:215-386 | the liquidity contributions are the same |
| ReportContent.ScopedShowsOnly | lib/reporting.ts:595-665 | a scoped workspace shows exactly the marks, rows and evidence of the selected holdings, the entities and accounts that own and keep them, and the transactions and events that touch nothing else |
| ReportingScope.ScopeChangesNothing | lib/reporting.ts:595-665 | for every sound ledger and every query whose selected entities each own a holding, the report from the scoped inputs equals the report from the whole workspace, errors included; what a report says is `ReportContent.PeriodReportIs` |
| ReportingScope.RunsReportAlike | lib/reporting.ts:388-665 | the same after any run of ledger commands; what a report says is `ReportContent.PeriodReportIs` |
| ReportingScope.ScopeChangesNothingExactly | lib/reporting.ts:595-665 | for acceptable dates and a known scope, the two reports agree if and only if every selected entity owns a holding |
| ReportingScope.EmptyEntityExample | lib/reporting.ts:602-622 | a new office with one entity and no holding: the whole workspace reports, the scoped inputs refuse the same query |
| History.OneCurrentOrConflict | lib/portfolio-history.ts:336-391 | a non-empty accepted group has exactly one current row and no conflicted one, or no current row and at least two conflicted ones, according to whether its uncorrected rows agree |
| History.HeadExists | lib/portfolio-history.ts:350-368 | when every lineage ends, some row of the group is uncorrected |
| History.CorrectedCopyConflicts | lib/portfolio-history.ts:339-390 | a mark recorded twice, whose second copy alone is corrected, leaves the first copy in force: the date is conflicted exactly when the correction changes anything |
| History.MarkCorrected | lib/portfolio-history.ts:339-349 | the first loop marks superseded exactly the rows that a later row corrects |
| History.MeasureLineage | lib/portfolio-history.ts:350-368 | following a lineage either gives its length or finds that it never ends |
| History.MeasureVersions | lib/portfolio-history.ts:350-368 | all rows get their lineage length as version, or the first circular lineage stops the projection |
| History.ResolveHeads | lib/portfolio-history.ts:369-390 | the uncorrected rows become conflicted together, or one current and the rest superseded |
| History.ResolveGroup | lib/portfolio-history.ts:336-391 | the loops fail exactly when some lineage is circular; otherwise every row ends with its specified status and version, and unaccepted rows are untouched |
| HistoryProjection.ResolveTimeline | lib/portfolio-history.ts:330-391 | grouping and resolving the whole list gives each row the status its own group decides |
| HistoryStatus.StatusSays | lib/portfolio-history.ts:330-391 | from the records alone: an unsourced or untimed mark is legacy; a mark is superseded when a usable mark of its position and day corrects it and was recorded no earlier, conflicted when another standing one says something else, current when all standing ones agree and it was recorded last |
| HistoryProjection.Project | lib/portfolio-history.ts:173-391 | the projection fails exactly on duplicate identifiers, too many rows or a circular lineage, in that order, and otherwise holds every visible row, in order, with its status |
| HistoryProjection.LastAt | lib/portfolio-history.ts:425-437 | the binary search finds the last row on or before the date, or none exactly when there is none |
| HistoryProjection.MarkAt | lib/portfolio-history.ts:438-445 | the mark is the last current row unless a conflicted row is as late or later |
| HistoryProjection.GroupContribution | lib/portfolio-history.ts:400-424 | an agreeing group puts its one current row, and nothing else of its date, on the current list; a disagreeing group only conflicted rows |
| HistoryProjection.MarkAtIsPlain | lib/portfolio-history.ts:425-445 | that answer is the plain rule: take the latest accepted date on or before the day; its sole current row, or nothing when that date is conflicted |
| HistoryProjection.HoldingMark | lib/portfolio-history.ts:400-445 | the code's own path from projected rows through both lists to a mark obeys the plain rule |
| HistoryProjection.LaterRecordsInvisible | lib/portfolio-history.ts:187-204 | a valuation recorded after the cutoff leaves the as-known rows unchanged, even when it is a correction |
| HistoryProjection.AsKnownIsTruncation | lib/portfolio-history.ts:187-204 | every as-known group equals the group of the log truncated at the cutoff |
| HistoryProjection.AsKnownMarks | lib/portfolio-history.ts:438-445 | as-known marks equal the restated marks of the truncated log |
| HistoryPoints.DisplayMark | lib/portfolio-history.ts:446-463 | the shown mark is the one mark of the plain rule, if the position is held on the date and the source currency is the one asked for; being held is `HistoryCohort.CohortIs` |
| HistoryCohort.CohortIs | lib/portfolio-history.ts:446-452 | from the lifecycle records in force as known: a point counts a selected position exactly when no closing is dated on or before the deciding day and an opening is, if any is recorded; that day is the point's own for the historical basis and today for the present one |
| HistoryCohort.HeldInOnePeriod | lib/portfolio-history-lifecycle.ts:53-77 | in every state the declarations can reach, that is: no closing on or before the day, and no opening after it |
| HistoryCohort.UnrecordedIsKept | lib/portfolio-history.ts:446-452 | a position without records is counted |
| HistoryCohort.NothingAfterTheEnd | lib/portfolio-history.ts:464-496 | once every selected position has closed, a point counts nothing and has no amount |
| HistoryPoints.PointAt | lib/portfolio-history.ts:464-496 | looking the cohort up one by one tallies exactly the shown marks of the positions held on the date |
| HistoryPoints.PointMeans | lib/portfolio-history.ts:472-487 | a full amount is given exactly when every mark of a non-empty cohort has a value, a known amount exactly when some mark has, and known and unknown make up the cohort |
| HistoryCohort.PointIs | lib/portfolio-history.ts:464-496 | a point adds up the marks that the plain rule gives the positions held, each worth its own amount or a supported EUR value, and counts those known, carried, and without a value |
| HistoryPoints.PointDates | lib/portfolio-history.ts:542-561 | the chart has a date for each current mark in range, each declaration known by then, its start, and its end if anything is current, in order and once |
| HistoryCohort.PointDatesAre | lib/portfolio-history.ts:542-561 | the dates of the chart are those of current marks and, on the historical basis, of declarations known by the cutoff, within the range, with its first day and its last |
| HistoryPoints.ProjectHistory | lib/portfolio-history.ts:126-541 | from the books to the answer: refused exactly for a bad date, too many holdings or observations, a repeated identifier or a circular lineage, in that order; otherwise one point a chart date, the summary, and a view of each position; the cohort of each point is `HistoryCohort.CohortIs`, its totals `HistoryCohort.PointIs` |
| HistoryPoints.AnswerIsUnique | lib/portfolio-history.ts:606-657 | a query has only one answer |
| HistoryPoints.LaterValuationInvisible | lib/portfolio-history.ts:187-204 | a valuation recorded after the cutoff, correction or not, leaves the whole as-known answer alone: dates, points, summary, latest marks, ownership and details |
| HistoryPoints.LaterValuationAccepted | lib/portfolio-history.ts:173-204 | with a fresh identifier and room for it, it does not turn an answer into a refusal, nor a refusal into an answer |
| HistoryPoints.LaterDeclarationInvisible | lib/portfolio-history.ts:133-144 | so does a lifecycle declaration recorded after the cutoff |
| HistoryPoints.AsKnownAnswerIsRestated | lib/portfolio-history.ts:187-204 | the as-known answer is the answer, without a cutoff, from the valuations and declarations truncated at it, whatever unsourced rows are then shown |
| HistoryPoints.AsKnownPointIsRestated | lib/portfolio-history.ts:464-496 | so is each point, at any date |
| HistoryPoints.AsKnownRefusedAlike | lib/portfolio-history.ts:166-204 | within capacity and with distinct identifiers, one is refused exactly when the other is |
| HistoryMoney.MoneyRoundTrip | lib/portfolio-history.ts:39-56 | parsing a formatted amount returns the same cents, negative amounts included |
| HistoryMoney.OnlyFormIsRead | lib/portfolio-history.ts:39-51 | an amount is read exactly when it has the decimal form: an optional sign, whole digits, at most two decimals |
| HistoryMoney.MoneyHasForm | lib/portfolio-history.ts:52-56 | every amount is written in that form with two decimals |
| CorrectionLog.LaterEntryInvisible | lib/portfolio-history-lifecycle.ts:20-40 | an entry recorded after the cutoff does not change the as-known effective list |
| CorrectionLog.LaterEntriesInvisible | lib/participation.ts:25-45 | neither does any number of them |
| CorrectionLog.AsKnownIsTruncation | lib/participation.ts:25-45 | the as-known list is the present list of the log truncated at the cutoff |
| CorrectionLog.AppendWellFormed | lib/participation.ts:61-224 | an append that corrects at most one record in force keeps every record corrected at most once, only by a later one of the same position |
| CorrectionLog.InForceSnoc | lib/participation.ts:36-44 | appending removes the corrected record from the list in force, inserts the new one in order, and changes nothing else |
| CorrectionLog.OfHoldingSnoc | lib/participation.ts:36-44 | other positions' lists do not change at all |
| Ordering.SortIsSorted | lib/participation.ts:38-44 | sorting puts no entry before one that precedes it |
| Ordering.SortPermutes | lib/participation.ts:38-44 | sorting neither loses nor repeats an entry |
| Ordering.FilterSort | lib/portfolio-history-lifecycle.ts:47-49 | selecting after sorting is sorting the selection |
| Lifecycle.AppendKeeps | lib/portfolio-history-lifecycle.ts:79-233 | every accepted append keeps each position one period: at most one opening and one closing, in order, and all details between them |
| HistoryDecisions.DeclaresExactly | lib/portfolio-history-lifecycle.ts:79-233 | a declaration is accepted exactly when its position, sources, owner and account are registered, the record it corrects stands, nothing else in force states the event and the period stays in order; it then adds its record and nothing else |
| HistoryDecisions.OrderIsOnePeriod | lib/portfolio-history-lifecycle.ts:208-231 | with one statement of each event, the order checked is that of one ownership period |
| Lifecycle.RunsStayOk | lib/portfolio-history-lifecycle.ts:79-233 | so does every sequence of accepted and refused appends |
| Lifecycle.StatusIsPeriod | lib/portfolio-history-lifecycle.ts:57-71 | not yet opened means exactly before the opening, ended exactly from the closing on, and unknown only without an opening |
| Lifecycle.OwnershipIsOneInterval | lib/portfolio-history-lifecycle.ts:64-71 | ownership never comes back once ended, was never held before it was not yet open, and every detail falls within it |
| Lifecycle.DetailsAreLatest | lib/portfolio-history-lifecycle.ts:59-60 | the details in force are those of the latest record on or before the date, and absent exactly when there is none |
| Lifecycle.CurrentIsShaped | lib/portfolio-history-lifecycle.ts:79-233 | in every state reached by appends the records of a position are in the shape the last three rules ask for |
| Lifecycle.AppendInvisibleBefore | lib/portfolio-history-lifecycle.ts:41-51 | an append recorded after the cutoff leaves every as-known lifecycle unchanged |
| Lifecycle.RestatingIsAccepted | lib/portfolio-history-lifecycle.ts:79-233 | restating a record in force unchanged, as a correction, is always accepted |
| Participation.AppendParticipation | lib/participation.ts:61-239 | the toggling method returns exactly the specified state or error |
| Participation.ScanLink | lib/participation.ts:46-58 | the scan finds the record the rule names |
| Participation.ScanAlternation | lib/participation.ts:225-236 | the flag loop accepts exactly the lists that alternate link, unlink |
| Participation.AppendKeeps | lib/participation.ts:61-239 | every accepted append keeps each position's active mappings alternating by date, one a day, each record corrected at most once, and every investment registered |
| HistoryDecisions.ParticipatesExactly | lib/participation.ts:61-239 | a declaration is accepted exactly when it is admissible, corrects a standing record or none, its day is free, it names an investment, and links and unlinks still take turns; it then adds its record and at most one investment |
| HistoryDecisions.NamesExactly | lib/participation.ts:156-192 | a link names a registered investment or registers a new one; unlinks and ownership are about the investment linked on that day |
| Participation.RunsStayOk | lib/participation.ts:61-239 | so does every sequence of accepted and refused appends |
| Participation.LinkAtIsInForce | lib/participation.ts:46-58 | a position is linked by a record exactly when that record is the latest mapping in force on or before the date, and is a link |
| Participation.AppendTakesEffect | lib/participation.ts:61-239 | an accepted link is the link in force on its date and to the requested investment, an unlink leaves none, and an ownership statement points at the link in force |
| Participation.AppendIsLocal | lib/participation.ts:61-239 | it changes no other position, and, unless it is a correction, no earlier date |
| Participation.AppendInvisibleBefore | lib/participation.ts:25-58 | an append recorded after the cutoff leaves every as-known link unchanged |
| ParticipationShares.PositionsPartition | lib/participation.ts:352-400 | the members of all listed investments and the unlinked list are together exactly the selected positions, none twice |
| ParticipationShares.ReachablePositionsPartition | lib/participation.ts:352-400 | and so for every reachable state and cutoff |
| ParticipationShares.ShareIsFloor | lib/participation.ts:256-270 | a family's share is the exact share rounded down to a millionth of a percent |
| ParticipationShares.SharesNearlyWhole | lib/participation.ts:360-379 | the shares of an investment of positive known value sum to at most 100 percent and to more than that less one millionth for each family with a known value |
| ParticipationContent.PositionsAre | lib/participation.ts:285-335 | the rows held or of unknown ownership, in order and once, each with the link in force on the date |
| ParticipationContent.InvestmentsAre | lib/participation.ts:352-400 | an investment is listed exactly when some position is mapped to it, once, and with exactly those positions |
| ParticipationContent.TotalsAre | lib/participation.ts:240-255 | an unknown amount is never counted as zero nor a partial total as the whole |
| ParticipationContent.ShareExactly | lib/participation.ts:360-379 | a family has a share exactly when it has a known amount, no member's known amount is negative and their sum is positive |
| ParticipationContent.ShareIsTruncated | lib/participation.ts:256-270 | a share is the exact quotient cut off towards zero, also of a negative part |
| Calendar.NextIsNextBoundary | lib/report-obligations.ts:135-145 | the next start is later, on a boundary of the cadence, and no boundary lies between |
| Calendar.PeriodStartIs | lib/report-obligations.ts:135-156 | every day lies in exactly the period its start begins |
| Calendar.MonthOfIs | lib/report-obligations.ts:38-55 | the month of a day is the only one that contains it, leap years included |
| Obligations.MaterialiseVersion | lib/report-obligations.ts:863-896 | one version's loop considers exactly its due starts, in order, up to the first failure |
| Obligations.MaterialiseSchedule | lib/report-obligations.ts:853-897 | the versions follow one another |
| Obligations.Materialise | lib/report-obligations.ts:832-898 | range checks first, then all schedules, with no partial result |
| CalendarDecisions.ConsidersExactly | lib/report-obligations.ts:852-898 | an evaluation considers exactly the periods of active versions that have begun by the last day |
| CalendarDecisions.BuildsExactly | lib/report-obligations.ts:297-336 | a new occurrence ends where its stated period or the cadence says, is due by the local clock, and its grace runs from the deadline; it is not built exactly when that local time does not exist |
| CalendarDecisions.RangeExactly | lib/report-obligations.ts:832-851 | exactly which ranges are accepted |
| ObligationPeriods.CreatedKeeps | lib/report-obligations.ts:190-221 | creating a schedule keeps every version boundary natural and every occurrence owned by one version |
| ObligationPeriods.RevisedKeeps | lib/report-obligations.ts:224-295 | so does revising one, pausing included |
| CalendarDecisions.CreatesExactly | lib/report-obligations.ts:190-221 | a schedule is created exactly when its shape is right, its identifier is new and its first period lies ahead |
| CalendarDecisions.RevisesExactly | lib/report-obligations.ts:224-295 | a revision is accepted exactly when it comes after the latest one, at a boundary of it, and rewrites or splits no materialised period |
| ObligationPeriods.DueFits | lib/report-obligations.ts:864-893 | every due start lies in its version's calendar and its period ends before the next version begins |
| ObligationPeriods.PassAdds | lib/report-obligations.ts:864-898 | a pass adds exactly the missing due occurrences, never rewrites one, and never fails with a split period |
| ObligationPeriods.MaterialisedKeeps | lib/report-obligations.ts:832-898 | for a whole evaluation: same invariants, exactly the due identifiers added |
| ObligationPeriods.PeriodsDisjoint | lib/report-obligations.ts:864-895 | any two occurrences of one schedule have disjoint periods |
| ObligationPeriods.NoDayMissing | lib/report-obligations.ts:852-898 | every day an active recurring version covers, up to its boundary and the evaluated range, lies in a materialised period of that version |
| CatchingUp.DueGrows | lib/report-obligations.ts:857-868 | evaluating further and later makes no earlier occurrence undue |
| CatchingUp.PassSucceeds | lib/report-obligations.ts:869-893 | a pass with room for all it owes meets no limit and no missing deadline |
| CatchingUp.CatchUp | lib/report-obligations.ts:827-898 | if going straight to the later day succeeds, so do both stages of catching up to an earlier day and then to it, and they promise the same identifiers, periods and deadlines |
| ObligationBook.EvaluationsCatchUp | lib/report-obligations.ts:827-964 | the same for whole evaluations, exceptions included: the calendar fails neither stage, and the obligations agree |
| Exceptions.ReviewDeliveries | lib/report-obligations.ts:903-907 | each occurrence's signal is applied once, in order, or the first collision is reported; what becomes of each exception is `DeliveryReview.EvaluationReviews` |
| DeliveryReview.EvaluationReviews | lib/report-obligations.ts:646-797 | from its deadline, matched receipts and disposition, for every occurrence after an evaluation: a missing report past its grace has an active exception, newly opened if there was none and open unless a decision still stands; one still awaited gets none; a late one leaves a closed record of the delay; a receipt or a disposition closes the open or snoozed exception |
| DeliveryReview.DeliveryIs | lib/report-obligations.ts:360-411 | missing, awaited, late, on time and excused are told apart by deadline, earliest matched receipt and disposition, without gap or overlap |
| DeliveryReview.EvaluationHears | lib/report-obligations.ts:908-964 | every other issue follows its external signal, or is retired once a complete snapshot no longer lists it |
| Exceptions.ReviewExternals | lib/report-obligations.ts:908-920 | a repeated or impersonating signal is refused, and the keys seen are exactly those listed |
| Exceptions.RetireUnreported | lib/report-obligations.ts:921-938 | exactly the external issues that are active and no longer listed are retired |
| Exceptions.WakeSnoozed | lib/report-obligations.ts:939-958 | exactly the snoozes that have expired are woken |
| ObligationBook.ApplyQuiets | lib/report-obligations.ts:646-757 | a signal once applied has nothing left to change, and other issues are untouched |
| ObligationBook.ReviewIsIdempotent | lib/report-obligations.ts:903-958 | reviewing all exceptions a second time at the same instant changes nothing, histories included |
| ObligationBook.EvaluatedKeeps | lib/report-obligations.ts:827-964 | an evaluation keeps the whole state valid and never fails with a split period |
| ObligationBook.EvaluationIsIdempotent | lib/report-obligations.ts:827-964 | evaluating twice with the same options equals evaluating once: occurrences, exceptions, histories and order |
| ObligationBook.ActedKeeps | lib/report-obligations.ts:966-1010 | acting on an exception keeps keys unique and origins in place |
| ObligationBook.AddedKeeps | lib/report-obligations.ts:1012-1028 | so does adding one by hand |
| ObligationBook.Book.CreateSchedule | lib/report-obligations.ts:190-221 | the state is valid after it, and changes only by the new schedule, or not at all |
| ObligationBook.Book.ReviseSchedule | lib/report-obligations.ts:224-295 | the same for a revision |
| ObligationBook.Book.Evaluate | lib/report-obligations.ts:827-964 | the same for an evaluation, which fails as a whole or takes effect as a whole; what becomes of each exception is `DeliveryReview.EvaluationReviews` and `DeliveryReview.EvaluationHears` |
| CalendarDecisions.EvaluatedInOrder | lib/report-obligations.ts:898-902 | occurrences are stored by the day their period starts, then by the order of their schedules |
| CalendarDecisions.EvaluatedFits | lib/report-obligations.ts:178-180 | an evaluation that succeeds leaves at most 50,000 occurrences and exceptions, none with more than 5,000 entries |
| ObligationBook.Book.ActOnException | lib/report-obligations.ts:966-1010 | the same for an action on an exception |
| ObligationBook.Book.AddManualException | lib/report-obligations.ts:1012-1028 | the same for a manual exception |
| CalendarDecisions.ActsExactly | lib/report-obligations.ts:966-1011 | a decision is accepted exactly for a known issue with room for it, and a snooze only while the source is active and for at most 366 days; it changes its own field, the time and the history |
| CalendarDecisions.AddsExactly | lib/report-obligations.ts:1012-1028 | a manual issue is new, is no delivery, opens at once and leaves every other issue alone |
| Returns.CalculateTimeWeightedReturn | lib/finance.ts:105-125 | the loop gives the geometric link of all period growths less one, or nothing as soon as one period is undefined |
| Returns.AggregateDaily | lib/finance.ts:187-252 | it fails exactly on a repeated observation; otherwise exactly the dates observed have one point each, in order, built from exactly that date's rows |
| Returns.IndexPoints | lib/finance.ts:206-251 | every point carries the specified index |
| Returns.NextIndex | lib/finance.ts:226-243 | one turn of the loop follows the rule |
| Returns.IndexLivesWhileLinked | lib/finance.ts:227-243 | the index is present exactly while the first day is complete and every later day is complete, contiguous and has a defined return |
| Returns.IndexStaysNull | lib/finance.ts:227-243 | once null it stays null |
| Returns.IndexIsLinkedGrowth | lib/finance.ts:238-242 | between two present points the index grows by exactly the linked growth of the days between |
| Returns.IndexReturnIsTimeWeighted | lib/finance.ts:268-284 | so the ratio of two positive index values less one is the time-weighted return over exactly those days |
| ReturnsContent.DayIs | lib/finance.ts:211-225 | a day adds up the observations of its date and is complete exactly when every selected holding has one that is usable and covered |
| ReturnsContent.GrowthIs | lib/finance.ts:109-124 | growth times the capital at the start is the value at the end without the money that came at its end |
| ReturnsContent.IndexStarts | lib/finance.ts:206-251 | the index starts at 100 on a complete first day, and not at all otherwise |
| ReturnsContent.IndexMoves | lib/finance.ts:228-243 | from one complete day to the next the index times the old value is the old index times the new value less the day's flow |
| ReturnsContent.IndexFollowsValue | lib/finance.ts:206-251 | over days without flows the index moves exactly as the value does |
| Returns.MonthlyPoints | lib/finance.ts:253-265 | each month with a point has one row, its last daily point, carrying the month's whole flow; total flow is kept |
| WorkerLease.Store.Start | scripts/worker.ts:113-162 | the start transaction commits only behind two lease checks, and otherwise changes nothing |
| WorkerLease.DropSparesPending | scripts/worker.ts:163-169 | dropping the row of a job the start could not use never strands a pending job, and changes no job |
| WorkerLease.Store.Complete | scripts/worker.ts:209-251 | result, status and queue row change together or not at all |
| WorkerLease.Store.FailJob | scripts/worker.ts:268-358 | requeue, defer, retry or fail: status and queue row change together or not at all |
| WorkerLease.TouchNeedsLease | scripts/worker.ts:120-169 | any worker's step that changes a job or removes its row happens while that worker, and no other, holds a live lease on it, from before the step to its last clock reading |
| WorkerLease.TenureIsUnbroken | scripts/worker.ts:71-365 | in every run, a live lease goes back, unbroken, to its holder's claim |
| WorkerLease.WorksAlone | scripts/worker.ts:71-365 | in every run, from its claim to any step by which a worker touches a job, no other worker touches that job |
| WorkerRetries.LeaseIsExclusive | lib/server/worker-scope.ts:26-54 | while a lease is live no step of another worker changes or removes the row |
| WorkerRetries.ClaimsExactly | lib/server/worker-scope.ts:26-41 | an idle worker may claim a row exactly when it is available and any lease on it ran out before now |
| WorkerRetries.ClaimGrants | lib/server/worker-scope.ts:26-41 | a claim leases the row for ninety seconds, counts an attempt and changes nothing else |
| WorkerRetries.RenewalExtends | lib/server/worker-scope.ts:43-54 | renewing moves only a live lease of its holder, to ninety seconds from now |
| WorkerRetries.RunsBoundWaiting | lib/server/worker-retry.ts:1-18 | in every run no job waits for capacity more than thirty times |
| WorkerRetries.RetryKeepsCount | lib/server/worker-retry.ts:1-18 | in every run, a committed retry leaves a row that was claimed fewer than three times |
| WorkerLease.StepInv | scripts/worker.ts:113-358 | any step of any worker, and any expiry, keeps the invariant: at most one result per job, a processing job keeps its queue row, and every worker in mid-attempt knows what the store last told it |
| WorkerLease.RunsAreFenced | scripts/worker.ts:71-365 | hence so does every interleaving of any number of workers |
| WorkerLease.QueuedRowsKeptExactly | scripts/worker.ts:332-357 | a step keeps "every queued job has a queue row" exactly unless it ends, as failed, an attempt on a job that is still queued |
| WorkerLease.RunsKeepRowsExactly | scripts/worker.ts:332-357 | a run keeps it throughout exactly when none of its steps does that |
| WorkerLease.CleanRunsKeepRows | scripts/worker.ts:113-358 | when no start transaction throws, every queued job keeps its queue row throughout the run |
| WorkerLease.TroubledStartsOrphan | scripts/worker.ts:126-128 | when starts do throw, the promise fails: a run is given in which three failed starts leave a queued job without a queue row |

## Left out

- Display: sort orders of rows shown to a reader, percentages, names, warnings, gap texts, provenance lists, limitation texts.
- Floating point: amounts are exact cents and rates exact rationals; the code relies on values below 2^53, and the 1e-10 weight tolerance is a constant here.
- Schema checks of single fields (lengths, patterns, enumerations, money in range): taken as given, as `Shaped`, `CommandOk` and `WellShaped` say.
- RiskValidator.Validator.Validate: after a depth error (`lib/risk-contract.ts:127-133`) or a dangling name the model skips the path count, which need not terminate there; the graph is refused either way.
- Time zones: the local date and the deadline instant are functions of date, time and zone; years past 9999 are not bounded.
- Identifiers: fresh ones are assumed fresh, and recording times of the ledger increase strictly (`Fresh`, `Admitted`).
- Creating a family: whether a family exists is an argument of `CreateEntity`; families only matter as a list of names.
- Receipts of reports (match, revoke, reinstate) and dispositions: an occurrence carries any, and evaluation reads them, but the actions are not modelled, and no claim is made that one receipt at most is active.
- The history: no claim is made that ledger runs never produce a conflicted date; `History.CorrectedCopyConflicts` says how one does.
- The history response: the selection of holdings is an argument; opening and closing comparisons, first observed dates (which change when a cutoff hides unsourced rows) and reasons are not modelled.
- History change amounts between comparable rows, paging of the response, and the percentages on it.
- ReportingScope.ScopeChangesNothing: asks that each explicitly selected entity own a holding; `ReportingScope.ScopeChangesNothingExactly` shows the condition cannot be dropped.
- Liquidity groups are compared as groups, not in the order shown.
- Cloned state: the ledger, lifecycle and participation steps are functions because the source clones its input and returns a new state; aliasing between the two does not arise.
- WorkerLease.StepInv: claiming and renewing are not part of this model beyond their contract (claim takes a free or expired lease, renew extends a live one held by the caller); leases expire by the clock alone.
- The participation response: declared ownership percentages, portfolio weights and the catalog entries shown are not modelled.
- Encryption, audit rows, document search, the processor's HTTP exchange, and every screen.
- The liquidity block of a stress result (cash against capital calls): one-line arithmetic on sums already proved.
- Allocation by asset class and the metrics page (`lib/finance.ts:132-182`, `lib/finance.ts:285-404`): sums of the same kind as those above.
- Exceptions: the actions' free texts are opaque values; idempotence compares them.
