# Verified model of the hierarchical budget ledger

An AI gateway asks this service, before each request, whether the budgets that match the request
can still pay for it, and tells it afterwards what the request really cost. Several gateway pods
share one database. This project models that database and the services around it in Dafny and
proves what they keep over every run. `dafny verify dfyconfig.toml` checks all of it.

## Structure

The state (`Database.Db`) is the budget rows, the reservations and the usage records. A transaction is
one function from state to state, and a run is any sequence of committed transactions: reserve, settle,
commit of an earlier read, cleanup, reset. A settlement is atomic if its reads and its transaction run
without interference; results that need this say so. `Ledger.Ledger` is the imperative side, with the source's
loops and its in-place updates; every method is proved to commit exactly the step of the same
transaction, so whatever is proved about all runs holds of the methods.

| file | content |
|---|---|
| Model, Hierarchy | rows, processing order, ancestor chains |
| BucketFill | how one settlement spreads its cost over a path |
| Admission | the reserve-or-deny decision |
| Database, Ledger, Columns | transactions as steps, as methods over tables, and what they promise in the columns alone |
| Requests, PendingUsage, Overspend, Pricing, ResetRace | exactly-once settlement, pending accounting, the overspend bound, what pricing makes of it and what resets cost |
| Interleaving, SweepRace, Conservation, PathIndependence, Commutation, SettlementOrder, LevelOrder, UsageLog | stale reads, conservation of cost, order of settlements, usage records |
| Cascade, Edits, Approvals, Alerts, Forecast, RateLimits, PriceCache | the other state machines and calculations |

Amounts are exact reals and times are natural numbers of seconds (the two forecast headlines
count in hours). The set of matched budgets, token counts, prices and clock readings
are inputs. A statement that violates a key aborts its whole transaction.

## Where the code and its documentation differ

The model follows the code.

- docs/DESIGN.md:243 says that pending is the sum of the live reservations. A settlement deletes the
  reservations on all budgets but lowers pending only on the first one. `PendingUsage.PendingExact` gives the
  exact difference in every run, `PendingIsLiveIff` the exact condition for the claim, and `SharedRequestStrands`
  shows that every settled request with a positive estimate on two or more budgets breaks it (a request that a
  cleanup removes is released on all of them).
- docs/ARCH.md:187 says that an isolated child keeps its spend from the parent. The settlement
  loop charges the isolated child and passes the whole cost on as well (`BucketFill.IsolationShieldsNobody`).
- docs/DESIGN.md:328 treats the cost of an unknown model as 0. The code uses 1 and 3 dollars per million
  tokens (`Pricing.CalculateCost`).

## Properties that fail, and exactly when

- The reported remaining budget is meant as a minimum; after an overdrawn row the next row replaces it
  (`Admission.ReportedIsMinimumIff`, with a concrete pair in `ReportedMissesMinimum`).
- A reset zeroes pending and keeps the reservations, so a new period may admit its whole amount on top of the
  traffic in flight. `Overspend.OverspendBound` carries that term, `NoOverspend` drops it for resets that meet no
  live reservation, and `ResetRace.ResetIsSafeIff` shows for root budgets that this condition is exact, also for
  reservations that were made together with budgets further down. The same resets make GREATEST(0, …) change
  figures (`PendingUsage.ClampBitesIff`, `ClampNeverBites`).
- A settlement whose reservation was removed after it was read releases the estimate a second time
  (`Interleaving.StaleReleaseIff` says when this matters), and so does a settlement that runs between two
  statements of a cleanup, when its reservation had expired (`SweepRace.SettleDuringCleanup`). Two handlers that read one
  reservation charge it twice (`TwoCommitsChargeTwice`); a late commit after a cleanup is the only charge.
  `Requests.ChargesCounted` gives the exact count, `ChargedAtMostAdmittedIff` and `SecondChargeIff` say exactly
  when a request is charged too often.
- Settlements that start from different budgets commute iff no budget stands at a higher level than its parent, on
  tables whose parents are not isolated and whose roots stand on top (`LevelOrder.OrderFreeIff`).
- Edits are safe in every schedule iff no client sends a version ahead of the row it was applied to
  (`Edits.EditSafeIff`).
- Budget approvals are checked before an unguarded write. `Approvals.RaceActsGuardedIff` and `RaceStaysSoundIff`
  say exactly which interleavings act as guarded handlers and which keep the count within bounds;
  `UnguardedRejectUndoesApproval` and `RacingRejectsAllCount` are two that do not.
- The price cache has one lifetime for all entries. `PriceCache.OldPriceServedIff` says exactly when a price that
  has changed is still served; `ExpiredEntryRevives` is the surprising case.
- The two forecasts differ when the projection meets the amount exactly (`Forecast.ForecastsAgreeIff`).

## Assumptions of the main results

- Parents form a forest (`Hierarchy.Ranked`) where a result needs a chain to end; edits do not check this.
  `Chain` itself is total: on a cycle it stops before the first repeated budget.
- Order of settlements that start from different budgets: a child's level (user, team, organisation) is never above
  its parent's (`Commutation.LevelsAscend`), which makes the processing order follow the chain;
  `LevelOrder.OrderFreeIff` shows that the condition is exact. Settlements that start from one budget
  need no assumption (`PathIndependence.OnlyTheTotalCounts`).
- Request ids are not reused while their reservations are alive (`Requests.FreshRun`).
- `Overspend.OverspendBound` assumes that a settlement charges only budgets its request reserved on;
  `ClosedRunsReserveCharges` derives this when requests match all ancestors of their first budget.
- `UsageLog.PeriodUsageBelowUsage` and `LogIsNewestByStamp` assume that transactions which stamp rows commit in the
  order of their stamps.
- `Conservation.UsageConserved` assumes that roots are not isolated; `UsageAccounted` needs no such assumption.

## Model

| member | source | states |
|---|---|---|
| Overspend.OverspendBound | internal/budget/service.go:385-571 | In any interleaving of reservations, atomic settlements, cleanups and resets, a budget that cannot fall back keeps usage + live reservations ≤ amount + Σ max(0, actual − estimate) over the requests settled since its last reset + what was reserved on it at that reset, or left uncovered at the start |
| Overspend.SpendBound | internal/budget/service.go:602-788 | Every run, commits of earlier reads included, and no assumption on which budgets a request reserved: the slack is by how much each settlement charges the budget beyond what it frees there, plus what pending failed to cover |
| Overspend.ClosedRunsReserveCharges | internal/budget/service.go:518-544 | If every request matches all ancestors of its first budget, then in every run an atomic settlement charges only budgets that carry a reservation of that request |
| Overspend.RunStaysCovered | internal/db/repository.go:481-534 | In every run a live request keeps a reservation on every budget of the chain its settlement will read |
| Overspend.NoOverspend | internal/budget/service.go:711-727 | If no settlement costs more than its estimate, usage passes the amount by at most what was reserved at the last reset or left uncovered at the start, and not at all from a covered start if no reset meets a live reservation |
| Overspend.ResetIsSafeStart | internal/db/repository.go:404-478 | Every state right after a reset, with any reservations alive, is one from which the bounds hold |
| ResetRace.ResetIsSafeIff | internal/db/repository.go:404-422 | For a root budget with nothing pending, as a reset leaves it, whose reservations climb to it in level order over budgets that are full, isolated or at rest themselves: usage stays within the amount in every run of settlements within their estimates iff nothing is reserved on it |
| ResetRace.RaceIsGood | internal/budget/service.go:385-571 | The run that shows it, for any reservation on the root: fill every budget of the chain and then the root, each with a reservation and a settlement of its own, then settle the old request; usage ends at amount + its estimate |
| ResetRace.FillChain | internal/budget/service.go:385-571 | From rest, a run of settlements within their estimates can fill any part of a chain from its first budget up |
| Overspend.AdmittedFits | internal/budget/service.go:467-491 | An admitted request fits every matched budget that cannot fall back |
| Pricing.EstimateCoversActual | internal/budget/service.go:195-261 | With the price of the estimate, tokens within the configured guess and a multiplier ≥ 1, actual ≤ estimate, found price or default price alike |
| Pricing.CostIsPerMillion | internal/budget/service.go:194-235 | A million input tokens cost the input price, a million output tokens the output price, costs are additive in both counts, and a model without a price costs as one priced 1 and 3 |
| Pricing.EstimateIsPaddedCost | internal/budget/service.go:237-261 | An estimate is the cost of exactly the configured tokens times the multiplier, or 0.01 when the lookup fails |
| Pricing.PricedRunNeverOverspends | internal/budget/service.go:195-261 | Pricing tied to safety: under those conditions, in any run with any resets and from any start with priced reservations, usage of a budget that cannot fall back passes its amount by at most what was reserved at its last reset or left uncovered at the start, and never from a covered start if resets meet no live reservation |
| PendingUsage.PendingExact | internal/budget/service.go:760-770 | In every run, pending − live reservations is what the period opened with (minus the reservations alive at the reset), plus what settlements deleted but did not release, plus what GREATEST(0, …) added |
| PendingUsage.ClampNeverBites | internal/db/repository.go:825-838 | With atomic settlements GREATEST(0, …) changes nothing while the period opened covered; right after a reset it can change something iff a reservation was alive |
| PendingUsage.ClampBitesIff | internal/db/repository.go:824-838 | In any state, no cleanup and no settlement would be clamped on a budget iff its pending covers its live reservations |
| PendingUsage.CoveredPeriod | internal/budget/service.go:760-770 | With atomic settlements, what settlements leave behind is never negative, and a period that opens covered is never clamped |
| PendingUsage.StrandedGrows | internal/budget/service.go:768 | Pending left behind by atomic settlements is never given back before a reset, whatever the budget opened its period with |
| PendingUsage.PendingIsLiveIff | docs/DESIGN.md:243 | With atomic settlements, in a period that opened with nothing uncovered, pending is the sum of the live reservations iff since the last reset every settled request had the budget as its first one or held nothing on it |
| PendingUsage.PendingIsLiveForSingleMatches | docs/DESIGN.md:243 | In particular the equality holds when every request matches one budget |
| PendingUsage.SharedRequestStrands | internal/db/repository.go:840-848 | A fresh request admitted on several budgets and settled leaves its estimate as pending on every one of them except the first, where pending is even |
| PendingUsage.PendingCovers | internal/db/repository.go:404-478 | In every run, live reservations ≤ pending + what was reserved at the last reset + what commits of earlier reads released a second time |
| PendingUsage.QuietMeansCovered | internal/db/repository.go:404-478 | With atomic settlements and resets that meet no live reservation, nothing is left uncovered |
| Requests.HoldsStayUniform | internal/budget/service.go:516-524 | For fresh ids all reservations of a request share one estimate and one expiry, in every run |
| Requests.HoldsLeaveTogether | internal/db/repository.go:840-848 | No transaction removes some but not all reservations of a request |
| Requests.SettledAtMostAdmitted | internal/budget/service.go:610-617 | In every run, with ids reused or not, a request is charged at most as often as it was admitted, once less while it is still reserved, and once more for each commit that comes when its reservation is already gone |
| Requests.ChargesCounted | internal/budget/service.go:610-770 | For fresh ids, in every run: charges + live reservation + sweeps by cleanup = admissions + late commits |
| Requests.ChargedAtMostAdmittedIff | internal/budget/service.go:610-770 | A request is charged no more often than it was admitted iff its late commits do not outnumber its sweeps and live reservation |
| Requests.SecondChargeIff | internal/db/repository.go:840-848 | For a request admitted once and without a late commit so far, the next commit is a second charge iff the reservation is gone and no cleanup swept it |
| Requests.ChargedAtMostOnce | internal/extproc/budget_server.go:188-240 | An id submitted and admitted once is charged at most once iff late commits do not outnumber its sweeps and live reservation; a denied one exactly as often as commits come late; atomic settlements are never late |
| Requests.SecondSettleIsNoop | internal/extproc/budget_server.go:276-364 | A repeated settlement changes nothing, whatever ran in between |
| Requests.SettleAfterExpiryIsNoop | internal/db/repository.go:624-674 | Once a cleanup has swept one expired reservation of a request, settling it changes nothing |
| Requests.FreshReserveHolds | internal/db/repository.go:569-592 | After an admission the first reservation of the request is on the first matched budget in processing order and every matched budget carries one |
| Conservation.UsageConserved | internal/budget/service.go:631-758 | With reservation, chain and commit as separate steps, in every interleaving of a period the usage of the non-isolated budgets grows by exactly the actual costs settled, on every forest whose roots are not isolated |
| Conservation.UsageAccounted | internal/budget/service.go:631-758 | On any table at all, it grows by those costs less what ran out at the top of a chain |
| Conservation.OpenChainCommit | internal/budget/service.go:656-737 | One commit on a chain without isolated budgets raises total usage by exactly the cost, after any events since the chain was read |
| Interleaving.StaleOvershoot | internal/budget/service.go:631-737 | A settlement that charges a non-isolated child leaves it above its amount by at most what others committed to it since the settlement read the chain |
| Interleaving.UsageAfterRun | internal/db/repository.go:808-822 | Usage after a run is the usage before plus what the run committed; resets can only lower it |
| Interleaving.UsageChangeBumpsVersion | internal/db/repository.go:808-822 | Versions never go down and no usage figure moves without a new version |
| Interleaving.StaleReleaseIff | internal/budget/service.go:760-770 | With exact accounting, a commit keeps live reservations covered iff its own reservation is still there, or its estimate or the pending figure is zero |
| Interleaving.TwoCommitsChargeTwice | internal/db/repository.go:840-848 | Two commits of one read charge every budget of the chain for both, and the second finds no reservation to delete |
| SweepRace.SettleDuringCleanup | internal/db/repository.go:624-674 | A settlement between the first and second statement of a cleanup: pending stays exact if its reservation had not expired, else it is short by exactly the estimate or by all remaining reservations, whichever is less |
| Commutation.SettleFillsUp | internal/budget/service.go:656-737 | A settlement fills the tree upwards from the first reserved budget, budget by budget, if levels ascend along that chain |
| Commutation.FillUpTwice | internal/budget/service.go:687-727 | Two fills from one budget leave every usage as one fill of the summed cost, with isolated budgets or without |
| Commutation.FillsUpCommute | internal/budget/service.go:687-727 | Any two fills of a forest commute, whichever budgets they start from |
| Commutation.OrderIrrelevant | internal/budget/service.go:687-727 | The usages after any number of fills depend only on the multiset of costs and starting budgets |
| SettlementOrder.BatchRun | internal/budget/service.go:602-788 | A run of settlements of different requests leaves the usages that their costs give when the tree is filled bill by bill |
| SettlementOrder.SettlementOrderIrrelevant | internal/budget/service.go:602-788 | Any two orders of the same settlement transactions leave the same usage on every budget of a forest whose levels ascend |
| LevelOrder.OrderFreeIff | internal/budget/service.go:790-812 | On a forest with positive amounts, whose parents are not isolated and whose roots stand on top: in every state any two orders of a batch of settlements leave the same usages iff no budget stands at a higher level than its parent |
| LevelOrder.LevelsMatter | internal/budget/service.go:790-812 | For every such table and every budget above its parent's level, a state and two settlements that leave the budget empty in one order and charged in the other |
| PathIndependence.OnlyTheTotalCounts | internal/budget/service.go:656-737 | Settlement transactions that start from one budget leave the same usage on every budget whenever their total cost is the same, split over requests in any way and in any order, on any table; in particular c1 and then c2 is c1 + c2 |
| PathIndependence.BatchCharges | internal/budget/service.go:656-737 | A run of settlements from one budget charges every budget as the fill of the total cost along the chain |
| SettlementOrder.FillUpShape | internal/budget/service.go:687-727 | What a fill does depends only on configuration and on the usages it starts from |
| BucketFill.Conservation | internal/budget/service.go:650-727 | Charges to non-isolated budgets plus the uncharged remainder equal the actual cost, on every path |
| BucketFill.RootTakesRest | internal/budget/service.go:687-727 | A non-isolated root leaves no remainder |
| BucketFill.ChargeClosedForm | internal/budget/service.go:687-737 | Each parented budget is charged clamp(cost − spare room of earlier budgets, 0, own spare room); a root or isolated budget what is left |
| BucketFill.RemainderClosedForm | internal/budget/service.go:687-727 | What is left after a path is zero below an open root, else the cost beyond the total spare room |
| BucketFill.ChargedOnlyAfterFull | internal/budget/service.go:687-727 | A budget is charged only if every earlier non-isolated one is parented and now full |
| BucketFill.ChargeStaysWithinAmount | internal/budget/service.go:691-709 | One fill never pushes a parented non-isolated budget past its amount |
| BucketFill.FillsCompose | internal/budget/service.go:656-737 | On any path, filling with c1 and then c2 equals filling with c1 + c2, on every budget and in the remainder |
| BucketFill.FillsCommute | internal/budget/service.go:656-737 | So two fills of one path commute |
| BucketFill.IsolationShieldsNobody | docs/ARCH.md:187 | Dropping the isolated rows from a path changes no other row's charge: an isolated child does not keep cost from its parent |
| BucketFill.ChargeForBounds | internal/budget/service.go:711-727 | No budget is charged less than zero or more than the actual cost |
| Admission.Decide | internal/budget/service.go:455-513 | The loop with its early break decides the declarative form: admitted iff every matched budget has room or may fall back to a matched direct parent that has; on denial the limiter is the first failing isolated budget, else the last failing one |
| Admission.DecisionUnique | internal/budget/service.go:282-371 | The rows determine the decision, so both entry points decide the same on the same rows |
| Admission.AdmissionIgnoresOrder | internal/budget/service.go:792-812 | Admission does not depend on the order of the rows, and sorting does not change it |
| Admission.ParentMap | internal/budget/service.go:441-453 | The parent map gives each row its direct parent iff that parent is matched too |
| Admission.FallbackParent | internal/budget/service.go:467-482 | A row falls back iff it allows it and its matched direct parent has room |
| Columns.AdmittedIff | internal/budget/service.go:455-491 | Admitted iff every matched budget has amount − usage − pending ≥ estimate, or allows fallback and its parent is matched and has it, whatever its level or isolation |
| Columns.LimiterIsShort | internal/budget/service.go:484-490 | The limiter of a denied request falls short itself; it is a lowest isolated budget that does, if any, else a highest one |
| Columns.AllowInColumns | internal/budget/service.go:493-570 | What an admission reports: a fallback iff some budget lacks the estimate, and then the parent, with the estimate left, of a highest such budget; a remaining figure of some matched budget, the least if none is overdrawn |
| Columns.DenyInColumns | internal/budget/service.go:460-512 | The figure of a denial is what some matched budget has left, and no more than the limiter has if none is overdrawn |
| Admission.ReportedFigure | internal/budget/service.go:458-465 | The reported remaining budget is the remaining budget of some row, and the minimum when none is overdrawn |
| Admission.ReportedIsMinimumIff | internal/budget/service.go:458-465 | It is the minimum iff no row is overdrawn, or the last row is overdrawn and is the minimum |
| Admission.ReportedMissesMinimum | internal/budget/service.go:458-465 | Remaining budgets −5 and 7 are reported as 7 |
| Hierarchy.SortByHierarchy | internal/budget/service.go:792-812 | The three append loops give users, then teams, then organisations, each group in its old order |
| Hierarchy.SortedIsPermutation | internal/budget/service.go:792-812 | The order is a permutation of the rows |
| Hierarchy.SortedLevels | internal/budget/service.go:790-791 | Along the order levels never go down: users, then teams, then organisations |
| Hierarchy.SortedGroups | internal/budget/service.go:792-812 | Before a user stand only users, and after an organisation only organisations |
| Hierarchy.SortedIsStable | internal/budget/service.go:792-812 | Within its group every row keeps its place relative to the others |
| Hierarchy.SortedKeepsOrdered | internal/budget/service.go:790-812 | Rows that already come in level order keep their order |
| Hierarchy.ChainReachesRoot | internal/db/repository.go:480-534 | In a forest the ancestor query starts at the budget and ends at a root |
| Hierarchy.PathRows | internal/db/repository.go:480-534 | A settlement visits each budget of the chain exactly once, as stored |
| Database.RunKeepsValid | migrations/001_initial.sql:107-115 | Every run keeps rows keyed, reservations unique per budget and request, non-negative and on existing budgets, and changes no configuration |
| Database.ReserveEffect | internal/budget/service.go:518-544 | A reservation adds the estimate to pending and to the live reservations of exactly the matched budgets, or changes nothing |
| Database.SettleEffect | internal/budget/service.go:602-788 | What a settlement does to usage, pending and live reservations of any one budget |
| Database.CleanupEffect | internal/db/repository.go:624-674 | A cleanup removes a budget's expired reservations and releases their sum |
| Columns.ReservedInColumns | internal/budget/service.go:516-544 | A reservation puts one hold and the estimate on every matched budget and nothing on any other |
| Columns.SettledInColumns | internal/budget/service.go:739-751 | A settlement writes one record, stamped now and as large as the rise of usage, for every budget of the chain, dropping the oldest of 30 |
| Columns.VersionInColumns | internal/db/repository.go:808-822 | A version counts the charges and resets of its budget one by one, and nothing else |
| Columns.SweptInColumns | internal/db/repository.go:424-478 | A sweep starts a new period for exactly the budgets whose period has ended; afterwards none with a positive length is overdue, and the others are as they were |
| Columns.SecondSweepIsNoop | internal/db/repository.go:424-478 | A second sweep at the same moment changes nothing |
| UsageLog.UsageIsSumOfRecords | internal/budget/service.go:739-751 | In every run current usage is the sum of all record costs written for the budget since its last reset |
| UsageLog.LogIsNewest | internal/db/repository.go:928-957 | The stored table is always the newest 30 (or fewer) of all records ever written, in commit order |
| UsageLog.LogIsNewestByStamp | internal/db/repository.go:942-951 | When stamps follow commit order, every dropped record has an earlier stamp than every stored one |
| UsageLog.PeriodUsageBelowUsage | internal/db/alert_repository.go:278-292 | The period usage read for alerts is ≤ current usage, with equality while at most 30 records fall in the period |
| UsageLog.SumSinceStart | internal/db/alert_repository.go:278-292 | The period sum counts a record from the very start of the period on |
| Ledger.ReserveAll | internal/budget/service.go:518-544 | The reservation loop aborts iff the request already holds a matched budget, else inserts one reservation and raises pending on each |
| Ledger.ChargePath | internal/budget/service.go:656-758 | The charging loop updates rows and records exactly as the fill function says, lists exactly the budgets charged a positive amount, and reports the running minimum of what they have left |
| Ledger.LeftoverAt | internal/budget/service.go:753-757 | The figures behind that minimum: remaining budget less the charge, budget by budget |
| Ledger.ReleaseAll | internal/db/repository.go:660-671 | The release loop lowers pending of each grouped budget once, by its total |
| Ledger.Ledger.CheckBudget | internal/budget/service.go:264-380 | Without reserving, the unique decision on the sorted matched rows, read as they stand; it denies iff some matched budget neither has the estimate left nor a matched parent to fall back to |
| Ledger.Ledger.CheckAndReserve | internal/budget/service.go:385-571 | Commits exactly the reservation step and reports the decision; it limits iff CheckBudget denies, whenever it does not admit no state changes, and when it admits exactly the enabled, approved, matching budgets get a hold and the estimate |
| Ledger.Ledger.ReadReservation | internal/db/repository.go:569-592 | The oldest reservation of the request, or none iff there is none |
| Ledger.Ledger.ReadPath | internal/db/repository.go:480-534 | The sorted chain of a budget, as it stands at this read, each ancestor once |
| Ledger.Ledger.CommitSettlement | internal/budget/service.go:636-775 | Commits exactly the settlement step on whatever was read, however stale, and reports the charged budgets and the remaining figure |
| Ledger.Ledger.DecrementBudgets | internal/budget/service.go:602-788 | For an admitted request, commits exactly the atomic settlement step; without a reservation nothing changes |
| Ledger.Ledger.CleanupExpired | internal/db/repository.go:623-674 | Commits exactly the cleanup as one step and counts the deleted reservations |
| Ledger.Ledger.ResetBudgetUsage | internal/db/repository.go:404-422 | Commits exactly the reset of one budget; reports whether it exists |
| Ledger.Ledger.ResetExpiredBudgets | internal/db/repository.go:424-478 | In one step, resets exactly the budgets with periodStart + length ≤ now and counts them; afterwards no budget with a positive length is overdue |
| PriceCache.PriceCache.GetModelCost | internal/budget/service.go:98-136 | Answer and new cache, including the lifetime that restarts only after it has run out |
| PriceCache.PriceCache.Refresh | internal/budget/service.go:141-154 | Replaces the cache by the whole price table |
| PriceCache.AnswersAreUncached | internal/budget/service.go:98-154 | While prices do not change, after any uses every answer is the uncached exact-then-base lookup |
| PriceCache.BasePriceForVersions | internal/budget/service.go:111-124 | A listed model has its own price, an unlisted one that of its base model if listed, else none |
| PriceCache.OldPriceServedIff | internal/budget/service.go:98-154 | After a price change and any uses of the cache, the old price is answered iff there was no refill and no successful lookup of the model outside the lifetime, and the lifetime the run has left is not over |
| PriceCache.ExpiryMoves | internal/budget/service.go:127-133 | The lifetime restarts exactly at a refill and at a lookup of any priced model after it has run out |
| PriceCache.ExpiredEntryRevives | internal/budget/service.go:127-133 | After a price change, an expired entry is served again for a whole lifetime once another model is looked up |
| Cascade.GetAllDescendants | internal/db/repository.go:1273-1307 | Exactly the descendants, each once, every child before its parent |
| Cascade.DeleteAll | internal/db/repository.go:1329-1335 | Deleting a children-first list never meets a row that still has a child |
| Cascade.BudgetTable.DeleteBudgetCascade | internal/db/repository.go:1309-1353 | On any finite forest exactly the target and its descendants go, the count is their number, and no survivor has a dangling parent |
| Cascade.BudgetTable.DeleteBudget | internal/api/handlers.go:1089-1150 | Refuses iff there are children and no cascade; otherwise removes exactly the subtree |
| Cascade.NextGeneration | internal/db/repository.go:1284-1286 | One round of the recursive query gives the rows one generation deeper |
| Cascade.SubtreeGone | internal/db/repository.go:1309-1353 | What is left without a subtree is again a forest, with no dangling parent |
| Edits.EditRules | internal/api/handlers.go:882-1036 | An accepted edit never lifts a non-isolated budget above a known parent, moves the flags only with authority, enables only with permission, and moves each column only to what was asked |
| Edits.EditDoesAsAsked | internal/api/handlers.go:882-1025 | An accepted edit sets every column it asks for and may set, and leaves the others |
| Edits.EditRefusedIff | internal/api/handlers.go:882-1036 | An edit is refused iff its period is under 3600 seconds, it enables without permission, or it would lift a non-isolated budget above a known parent |
| Edits.EditTwice | internal/api/handlers.go:882-1036 | Sending an accepted edit again changes nothing more |
| Edits.FlagsNeedAuthority | internal/api/handlers.go:920-943 | In no interleaving do the flags of a team or user budget move without an organisation among the callers |
| Edits.EnablingNeedsPermission | internal/api/handlers.go:945-966 | In no interleaving is a disabled budget enabled without a caller who may |
| Edits.BudgetRow.UpdateBudget | internal/db/repository.go:337-366 | The versioned write succeeds iff the version matches and then touches configuration and version only |
| Edits.BudgetRow.Submit | internal/api/handlers.go:1038-1046 | Edit and write on a row read earlier, as one action of the shared-row model; it succeeds iff the edit is accepted and the row still has the version sent, or else the one read |
| Edits.ActInColumns | internal/db/repository.go:337-366 | What each action on a budget row does to every column; edits, charges and new periods move the version by one, holds and decisions do not |
| Edits.EditsSerialize | internal/api/handlers.go:856-1046 | In every interleaving with charges, holds, resets and decisions, the configuration is that of the accepted edits applied one at a time in commit order, if no version runs ahead of its read |
| Edits.EditSafeIff | internal/api/handlers.go:996-998 | In every schedule a successful write finds the configuration it read iff its version is not ahead of the row it read; for a request that leaves the amount, the fallback flag or the enabled flag alone, every schedule is serial iff so; parent amounts are the same for everyone and admit the row |
| Edits.AheadVersionLosesEdit | internal/api/handlers.go:996-998 | For any version ahead of the row read, by any distance, and any of three columns, a schedule in which an edit of that column, within the cap of its parent, is overwritten, with an outcome that is not serial if the request leaves the column alone |
| Edits.EditsLeaveMoneyAlone | internal/db/repository.go:337-366 | Erasing all edits from a run leaves usage, pending, period start and status as they are |
| Approvals.ApprovalRun | internal/api/approval_handlers.go:79-291 | For a budget created pending: rejections ≤ 3, closed iff 3, at most 5 effective steps, attempts never decrease, and the history replays to status and count |
| Approvals.RejectedMayResubmit | internal/api/approval_handlers.go:189-264 | After any run a rejected budget has fewer than 3 rejections and accepts a resubmission; a pending one accepts approval and rejection, which closes it as the third |
| Approvals.FiveStepsAreReached | internal/api/approval_handlers.go:79-291 | The bound of five effective steps is reached by rejecting three times |
| Approvals.AttemptsCountRejections | internal/api/approval_handlers.go:125-131 | In every run each attempt number is one more than the rejections recorded before it |
| Approvals.HandleStaysSound | internal/api/approval_handlers.go:79-291 | Every accepted handler call lowers the number of steps left; approved and closed accept nothing |
| Approvals.DecisionIsFinal | internal/api/approval_handlers.go:160-195 | Approved and closed are terminal under any sequence of calls |
| Approvals.ApprovalRow.ApproveBudget | internal/api/approval_handlers.go:79-138 | Approves iff pending, and appends the attempt |
| Approvals.ApprovalRow.RejectBudget | internal/api/approval_handlers.go:140-227 | Rejects iff pending, closing at the third rejection |
| Approvals.ApprovalRow.ResubmitBudget | internal/api/approval_handlers.go:229-291 | Resubmits iff rejected with rejections left |
| Approvals.ApprovalRow.SetStatus | internal/db/approval_repository.go:97-124 | Writes the status and counts a rejection, without a guard |
| Approvals.UnguardedRejectUndoesApproval | internal/db/approval_repository.go:97-124 | A rejection checked before an approval and written after it undoes the approval |
| Approvals.RaceActsGuardedIff | internal/api/approval_handlers.go:98-119 | With reads and writes of any number of handlers interleaved, status and count are throughout those of guarded handlers iff every write is timely: an approval meets pending or approved, a rejection pending with the same outcome, a resubmission pending or a rejection that may be resubmitted |
| Approvals.RaceStaysSoundIff | internal/db/approval_repository.go:97-124 | In such runs the count stays ≤ 3 with closed exactly at 3 iff every write meets a row that is not closed and, if it rejects, counts where its reader expected |
| Approvals.WriteActsGuardedIff | internal/db/approval_repository.go:97-124 | The same for one write |
| Approvals.RacingRejectsAllCount | internal/db/approval_repository.go:97-124 | n reviewers who read the same pending budget add n rejections and leave the status of the first |
| Approvals.AllocationsAlternate | internal/db/ratelimit_repository.go:257-298 | Guarded in SQL, decisions and resubmissions strictly alternate under any order of requests, nothing follows an approval, and the count is the number of rejections |
| Approvals.AllocationRow.ApproveAllocation | internal/db/ratelimit_repository.go:257-277 | Approves iff pending |
| Approvals.AllocationRow.RejectAllocation | internal/db/ratelimit_repository.go:279-298 | Rejects and counts iff pending |
| Approvals.AllocationRow.ResetAllocationForResubmit | internal/db/ratelimit_repository.go:510-529 | Back to pending iff rejected |
| Forecast.WarnsIffOverrun | internal/alert/service.go:42-71 | The alert forecast gives days ≥ 0 iff the projected spend exceeds the amount |
| Forecast.GoesOnAtObservedPace | internal/alert/service.go:50-71 | The projection adds period usage × time left ÷ time elapsed, and a positive answer is when that pace reaches the amount |
| Forecast.NothingObserved | internal/alert/service.go:50-69 | With no elapsed time or no usage the projection is the usage and the answer −1; an exhausted budget over its projection gives 0, one within it −1 |
| Forecast.ApiHeadline | internal/api/forecast_handlers.go:138-164 | The API projects usage + rate × days left, answers when that reaches the amount, and −1 when it does not or the budget is used up |
| Forecast.ExhaustionBeforeEnd | internal/alert/service.go:61-70 | A positive answer lies strictly before the end of the period |
| Forecast.ForecastsAgreeIff | internal/api/forecast_handlers.go:149-164 | For one burn rate and an unexhausted budget both forecasts agree iff the projected spend is not exactly the amount |
| Forecast.TimeSeries | internal/api/forecast_handlers.go:178-208 | The cursor loop ends and yields the specified series |
| Forecast.SeriesCoversPeriod | internal/api/forecast_handlers.go:184-208 | Points are one step apart, before the period end, with no gap at the end |
| Forecast.PointsPerPeriod | internal/api/forecast_handlers.go:65-74 | With the step of its length, a period makes one point per minute, hour or day begun: at most 60 or 24 below a day |
| Forecast.SeriesSplitsAtNow | internal/api/forecast_handlers.go:193-201 | Up to now the recorded usage of the bucket, if any, and no projected value; after now only projected values |
| Forecast.SeriesMatchesHeadline | internal/api/forecast_handlers.go:149-208 | The projected values add up to burn rate × remaining days to within one step |
| RateLimits.Merge | internal/extproc/ratelimit_server.go:343-376 | The merge loop yields per kind the limit of the first enforced row offering one |
| RateLimits.MostSpecificWins | internal/db/ratelimit_repository.go:78-127 | That limit comes from an enforced approved matching allocation of the most specific class offering it, and is absent iff none offers it |
| RateLimits.LimitInColumns | internal/db/ratelimit_repository.go:82-99 | In columns: the limit comes from an enabled, approved, enforced allocation of the team with a positive limit, for the model itself if there is one, else for a matching pattern, else for the bare wildcard |
| Alerts.AlertRun | internal/db/alert_repository.go:12-31 | In any run at most one alert exists per budget, kind and period, no alert disappears, and one no longer active never changes status |
| Alerts.DismissedStaysQuiet | internal/db/alert_repository.go:161-213 | A dismissed alert never becomes active again, under its own row or another |
| Alerts.ResolvedInColumns | internal/db/alert_repository.go:215-276 | Resolving closes exactly the active alerts that are named and keeps all others |
| Alerts.FiredTogether | internal/alert/service.go:104-115 | A forecast exhaustion alert always comes with an overrun alert, and conversely once the amount is used up |
| Alerts.FiringInColumns | internal/alert/service.go:26-40 | When each condition fires: usage × 100 ≥ percent × amount, usage ≥ amount > 0, projection > amount, and days within the threshold |
| Alerts.ForecastInSeconds | internal/alert/service.go:104-115 | The forecast behind an alert continues the pace of the period, told in seconds |
| Alerts.NewPeriodNewAlert | internal/db/alert_repository.go:12-31 | A condition that fires again in a later period adds a new active alert beside the old one |
| Alerts.AlertTable.CheckBudget | internal/alert/service.go:97-172 | A check keeps the old alerts in their places and adds, active, exactly the firing conditions that had no alert in the period, each told in columns |
| Alerts.AlertTable.InsertAlertIfNotExists | internal/db/alert_repository.go:12-31 | Inserts iff no alert has the same budget, kind and period |
| Alerts.AlertTable.DismissAlert | internal/db/alert_repository.go:161-178 | Dismisses exactly that alert iff it is active, and reports it |
| Alerts.AlertTable.DismissAllAlerts | internal/db/alert_repository.go:180-213 | Dismisses exactly the active alerts of the visible budgets and counts them |

## Left out

- Database.Cleanup: is one atomic step in runs, whereas the source runs a select, a delete and one update per budget; `SweepRace.SettleDuringCleanup` covers a settlement between the first two.
- Database.Reset: is one atomic step, whereas the source resets each kind of period with its own statement.
- Database.PeriodOver: uses a fixed length per budget, so calendar months are not modelled.
- Database.Step: has no creation, edit or deletion of budgets, so configuration is fixed during a ledger run; edits and deletions have their own modules.
- Database.FirstHold: takes reservations in creation order and does not model equal creation times.
- Hierarchy.Chain: does not model that the recursive query never ends on a cycle of parents.
- Ledger.ChargePath: leaves out the branch of the loop for a rate-limited request, as the next two lines say.
- Ledger.Ledger.CommitSettlement: leaves out that branch too.
- Ledger.Ledger.DecrementBudgets: does not model the branch for a rate-limited request, because the server always passes none for admitted requests.
- Ledger.Ledger.CleanupExpired: commits the cleanup as one step, like `Database.Cleanup`.
- Ledger.Ledger.ResetExpiredBudgets: commits all resets as one step, with fixed period lengths.
- Overspend.OverspendBound: assumes atomic settlements; for commits of earlier reads `SpendBound` gives the bound in terms of what each commit charges and frees.
- Ledger.Ledger.CheckBudget: works on the current rows; the cache of budget definitions in front of it and the retry-after delay are not modelled.
- UsageLog.LogIsNewest: takes records in commit order; that this is the order of the stamps, by which the source prunes, is the assumption of `LogIsNewestByStamp`.
- Edits.Apply: covers amount, period length, parent, the two flags and enabling; owner fields, description, match expression and the period-kind name are written by the same statement and left out.
- LevelOrder.OrderFreeIff: assumes that parents are not isolated and roots stand on top; isolated parents and low roots can hide a misplaced budget.
- Edits.EditSafeIff: says nothing about serializability of a request that sets amount, fallback flag and enabled flag all at once.
- Edits.BudgetRow.Submit: takes the parent amounts it compares with as an input; disabling children along with a budget is not modelled.
- Approvals.ApprovalRow: leaves out permissions, the reason text and the attempt numbers of rate-limit allocations.
- Forecast.TimeSeries: counts a calendar day as 86400 seconds and keys a bucket by its instant or day number instead of the formatted string; rounding of results, the confidence figure and the frozen burn rate are not modelled.
- PriceCache.PriceCache: takes the rule that strips a version suffix as a parameter.
- RateLimits.Merge: works on the answer of the query; which patterns SQL LIKE matches is a parameter.
- Floating-point rounding: amounts are exact reals, as the stored columns are decimals.
- Evaluation of match expressions: the matched set is an input.
- User interface, wiring, metrics, logging, audit log, access control, pagination, and the decoding of HTTP, gRPC and JSON: each would add only easy members.
