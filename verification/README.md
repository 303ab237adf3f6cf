# TradeAlpha: a verified model of the trading back end

This project models the order-to-fill-to-valuation pipeline of the TradeAlpha API, its candle pipeline and its
lease protocols, and proves what their design promises. `dafny verify dfyconfig.toml` checks all of it.

The model has four layers.

* **Rows and transactions.** `Domain` holds the tables (portfolios, positions, orders with their unique keys,
  fills, ledger) as one value, `Db`. `OrderSpec`, `LiquidationSpec` and `Valuation` say what each transaction of
  the services decides and commits. A transaction is atomic: the row locks make it so, and a failure rolls it back.
* **Services in their own form.** `Store.Database` is the mutable database. `PositionService`, `LedgerService`,
  `OrderService`, `PortfolioValuationService`, `LiquidationWorker`, `EodSweepService`, `TradingEngine`,
  `MarketCandleService`, `OhlcvAggregatorWorker`, `OutboxWorker`, `FeedLeaseService` and the engine's lease code are
  classes whose methods write step by step, loop as the source does, and are proved to compute what the first layer
  says; `EngineRefinement`, `LeaseRefinement` and `OutboxWorker` itself tie the handlers to the machines below.
* **Runs.** `Actions` runs any sequence of service transactions. `System` adds what surrounds them: rows read and
  handled late, engines that start, crash, lose leases and own overlapping symbols, ticks, activations under way,
  and jobs that are delivered late, several times, out of order or never. `Leases`, `FeedLeases` and `Outbox` are
  machines with an explicit clock.
* **Plain terms.** A service method and the transaction it is proved against share the small functions that say when
  a price is within a limit, at what price a position is valued, or which minute a tick falls in. `EngineTerms`,
  `OrderTerms`, `LiquidationTerms`, `ValuationTerms`, `TickTerms` and `CandleTerms` therefore say what comes out
  without any of them: in prices, quantities, statuses and times of day, where it matters over every run.

The main results are statements about every run:

* every order is filled exactly once, slice by slice, whatever the engines, readers and queues do, at prices its
  terms allow; only a job dispatched from the quantity now in the database can change anything;
* a buy never trades above its limit and a sell never below it, and for every kind of order it is known exactly which
  ticks send a job; an order is FILLED exactly when all of it is filled; every transaction succeeds exactly under
  conditions read off its rows;
* cash and shares locked are exactly what the active orders hold; a cash account never goes short; with limit
  buys it stays solvent;
* net asset value at cost never moves, so reported equity is starting value plus profit; the ledger follows every
  balance;
* liquidation is unique per portfolio, numbers its rounds without gaps, and its greedy choice is best exactly
  while equity is not negative; every order it opens takes one position to exactly zero;
* an engine's dispatch reaches further than its last one exactly when the row it is built from has caught up, and
  otherwise repeats an execution sent before; an engine that lost a symbol's lease sends nothing for it again;
* a lease has at most one fresh holder; an outbox event has one exactly while no claimant is overtaken;
* the row-limited candle query agrees with aggregating everything the aggregator stored, aggregation composes, and
  tick order and repetition do not show in a candle; exactly the ticks from 09:15:00 to before 15:30:00 are in one, and
  each in that of its minute.

Some promises turned out to hold only under a condition, and are stated with it and with an input for which they fail:

* `feed:global` can have two running owners when an answer arrives after the feed gave the lease up
  (`LateGrantBreaksExclusion`); a feed's fresh belief is right exactly when Redis performed its last release before its
  last grant (`BeliefIsRightExactly`), as it is whenever the grant was asked for after that release (`FeedExclusion`).
* An engine can send the same execution twice: when the evaluation that awaited an activation goes on for an entry
  dispatched meanwhile (`ResumptionRepeats`), or once such an evaluation has set a caught-up entry back
  (`SetBackRepeats`). `DispatchAdvancesExactly` and `SoundExactly` say when; the database absorbs it (`JobEffect`).
* An outbox event gets a second holder exactly when a claimant still at work after a minute is overtaken
  (`OneHolderExactly`, `SlowClaimantBreaksBoth`), and PUBLISHED is left exactly by the failure of a worker that still
  holds the event (`UndoneExactly`) - which may be its publisher, when the answer of its final update was lost
  (`UndoneWithoutOvertaking`, `LostAnswerUndoes`). Retries are bounded exactly while no event that was given up is
  tried again (`RetryBoundExactly`), and an event that was given up is due at once (`DueAfterFailureExactly`,
  `AttemptsUnbounded`).
* A client may take the key of the next liquidation round, and the portfolio is then not liquidated
  (`GeneratedKeyTaken`, `ClientTakesTheKey`).
* Greedy liquidation picks the worse position when equity is negative (`GreedyIsBest`, `RankingPicksTheWorse`).
* A MARKET buy can cost more than the account has (`BuyWithinReservation`, `MarketBuyCanOverdraw`).
* Reconciliation of cash against the ledger balances for a single-portfolio user opened with an empty ledger only
  if the portfolio was opened with no cash (`CashReconcilesFromEmpty`), as no entry records the starting cash.
* Margin reserved at placement is never given back (`PlaceThenEnd`, `ActMoves`): the order row never stores it.
* A margin portfolio with an open position cannot place an order that opens exposure: the valuation made inside the
  placement has no price cache and throws (`PlaceOrder`).
* The worker compares the shown, rounded margin level: between 99.99995 and 100 it leaves alone what the report calls
  a forced liquidation (`WorkerThresholds`).

Assumptions: quantities and money are exact reals, while the code stores `Decimal(19,4)` and rounds on write, so
the exact laws are the intended ones; whether a portfolio has margin never changes; liquidity profiles are
constant; Indian Standard Time is a fixed offset, so candle times are whole minutes; tokens and row ids are never
reused; a 1-minute row exists once per symbol and minute.

## Model

| member | source | states |
|---|---|---|
| Liquidity.WholePartsIsFloor | apps/api/src/engine/liquidity.config.ts:51-53 | the slippage level, counted by taking depths out of the filled quantity, is the floor of the quotient |
| Slices.CumLevel | apps/api/src/engine/liquidity.config.ts:49-55 | while an order is unfinished, the level read off its filled quantity is the number of slices done |
| Slices.SliceCount | apps/api/src/engine/trading-engine.ts:495-505 | n*depth + r is filled in n slices, n+1 when something is left over |
| Slices.ClosedFormCost | apps/api/src/engine/liquidity.config.ts:41-66 | at a constant reference price an order of n*depth + r moves exactly requested*touch + step*(depth*n*(n-1)/2 + n*r), for buys and mirrored for sells |
| Trade.TradeConservesBasis | apps/api/src/services/position.service.ts:60-115 | through long, short and zero-crossing trades the net cost basis moves by exactly the cash of the trade |
| Reservations.ActKeepsLaws | apps/api/src/services/order.service.ts:319-359 | every service action keeps both reservation laws |
| Reservations.ReservationsConserved | apps/api/src/services/order.service.ts:80-146 | in every run from an unlocked database, locked cash of a cash portfolio and locked shares of every holding are exactly what the active orders still hold |
| OrderTerms.StatusFollowsQuantity | apps/api/src/services/order.service.ts:286-302 | in every run an order is FILLED exactly when all of it is filled, and PARTIALLY_FILLED exactly when a part is and it has not ended |
| OrderTerms.StatusPath | apps/api/src/services/order.service.ts:27-37 | in every run an action moves a row only along the few transitions that are ever made: none leads to REJECTED or VALIDATED, and no final status is left |
| OrderTerms.FillOutcome | apps/api/src/services/order.service.ts:261-302 | in every reachable state a fill is applied exactly when the order waits for one, has room, the execution is new and the price not negative; the stored row and the reply are then FILLED exactly when that was all of it, else PARTIALLY_FILLED |
| OrderTerms.FillWrites | apps/api/src/services/order.service.ts:304-384 | what it writes, in numbers: cash against shares at its price, the lock it uses up, the entry price left and the profit stored with the fill; no other row |
| OrderTerms.PlacementOutcome | apps/api/src/services/order.service.ts:48-162 | in every reachable state a new order is made exactly when the request is complete, in session, new and affordable; what is locked is the value at the limit or at 105% of the market, as margin half of that at the limit, 52.5% (buy) or 47.5% (sell) of the market |
| OrderTerms.CancelAndExpireOutcome | apps/api/src/services/order.service.ts:409-542 | in every reachable state cancelling leaves CANCELLED, expiring EXPIRED, exactly for active orders, and frees exactly what the unfilled rest had locked |
| OrderTerms.RoutingOutcome | apps/api/src/services/order.service.ts:193-227 | PENDING exactly from ACCEPTED with the session open throughout; closed from the start expires every active order; closed in between changes nothing |
| OrderTerms.ActivationOutcome | apps/api/src/services/order.service.ts:229-259 | in every reachable state activation succeeds exactly for PENDING orders, of which nothing is filled, and marks them, again without effect |
| Steps.FillAllOrNothing | apps/api/src/services/order.service.ts:261-317 | a fill changes nothing or is applied as a whole, and only under its guards |
| Steps.ActIsQuiet | apps/api/src/services/order.service.ts:409-474 | no action but a fill moves cash, holdings, fills, ledger or filled quantities |
| Steps.ActMoves | apps/api/src/services/order.service.ts:27-37 | every step moves an order along the allowed transitions only (but for the liquidation worker's own cancellation), never changes its terms, and never releases margin |
| CashAccounts.CashAccountNeverShort | apps/api/src/services/position.service.ts:20-47 | in every run 0 <= locked, and locked <= held in a cash portfolio |
| CashAccounts.FillNeverLacksLock | apps/api/src/services/position.service.ts:153-155 | in every run a fill is never refused for want of locked shares, portfolio or position |
| CashAccounts.CashSellNeverCrosses | apps/api/src/services/position.service.ts:171-184 | a sell fill of a cash account closes part of a long position: short and zero-crossing branches are out of reach |
| CashAccounts.EndNeverFails | apps/api/src/services/order.service.ts:476-524 | in every run cancelling or expiring succeeds exactly on active orders |
| CashAccounts.FinalIsFinal | apps/api/src/services/order.service.ts:33-36 | a final status and the quantity filled by then never change again |
| CashAccounts.NothingActiveNothingLocked | apps/api/src/services/eod-sweep.service.ts:76-100 | without active orders nothing is locked: cash in cash portfolios, shares anywhere |
| CashAccounts.PlaceThenEnd | apps/api/src/services/order.service.ts:92-162 | placing and ending unfilled restores cash and shares; the portfolio is as before exactly when no margin was reserved |
| Conservation.FillKeepsNav | apps/api/src/services/order.service.ts:319-359 | a fill keeps cash plus positions at cost minus realized profit |
| Conservation.NavConserved | apps/api/src/services/position.service.ts:150-198 | the same over every run |
| Conservation.EquityIsCostPlusProfit | apps/api/src/services/portfolio-valuation.service.ts:62-114 | reported equity is net asset value at cost plus realized plus unrealized profit, at any prices |
| ValuationTerms.MarkIsHalfASpreadWorse | apps/api/src/services/portfolio-valuation.service.ts:69-96 | a position is valued half the listed spread below the cached price when long and above it when short; without a cached price, from its entry price |
| ValuationTerms.ReportOnOne | apps/api/src/services/portfolio-valuation.service.ts:62-155 | the report on a portfolio with one open position in plain numbers: values, profit, both margins, net asset value, free margin, staleness |
| ValuationTerms.StatusByEquity | apps/api/src/services/portfolio-valuation.service.ts:120-135 | the status compares equity with 100% and 120% of the maintenance margin, and is NORMAL when there is none |
| ValuationTerms.ShownIsNearest | apps/api/src/services/portfolio-valuation.service.ts:137-155 | what is shown is the nearest figure with four decimals, halves away from zero |
| Conservation.NavIdentity | apps/api/src/services/portfolio-valuation.service.ts:49-114 | after any run and at any prices equity is the starting value at cost plus all profit |
| Ledger.FillEntriesValid | apps/api/src/services/ledger.service.ts:16-37 | the records of a fill always balance and are refused exactly when the price is negative |
| Ledger.LedgerFollowsBalances | apps/api/src/services/order.service.ts:361-384 | over every run a user's cash and security accounts move with the cash and shares of all the user's portfolios, and every asset keeps balancing |
| Ledger.CashReconcilesExactly | apps/api/src/services/ledger.service.ts:73-98 | cash reconciles after a run exactly when the other portfolios hold what the ledger was off by at the start |
| Ledger.CashReconcilesFromEmpty | apps/api/src/services/ledger.service.ts:91-97 | for a single portfolio and an empty ledger: exactly when it started without cash |
| Ledger.SharesReconcileExactly | apps/api/src/services/ledger.service.ts:104-133 | the same condition for shares of a symbol |
| Liquidation.LiquidationRounds | apps/api/src/workers/liquidation.worker.ts:54-103 | in every run a portfolio has at most one active liquidation order, and its orders in a symbol carry exactly round_0 .. round_(n-1) |
| Liquidation.GeneratedKeyTaken | apps/api/src/workers/liquidation.worker.ts:147-152 | the next key meets no liquidation order's; it is taken exactly when a client of the user placed an order under it |
| Counterexamples.ClientTakesTheKey | apps/api/src/workers/liquidation.worker.ts:147-180 | a run of one client order from a database without orders, after which a portfolio at a margin level of 40% is refused its liquidation order for a duplicate key |
| Greedy.CloseAtMark | apps/api/src/services/portfolio-valuation.service.ts:81-106 | closing a whole position at its executable price keeps equity and frees exactly its maintenance margin |
| Greedy.CloseLowersMaintenance | apps/api/src/services/portfolio-valuation.service.ts:88-106 | with a positive price that is a strict fall |
| Greedy.GreedyIsBest | apps/api/src/workers/liquidation.worker.ts:111-144 | the candidate ranked first gives the best margin level of all single closes exactly when equity is not negative, margin is cleared, or nothing differs |
| Counterexamples.RankingPicksTheWorse | apps/api/src/workers/liquidation.worker.ts:134-144 | a portfolio with negative equity whose top-ranked close leaves -400% where the other close leaves -200% |
| LiquidationTerms.EvaluationOutcome | apps/api/src/workers/liquidation.worker.ts:49-182 | by equity over maintenance margin: called off from 1.1999995 times on, left alone from 0.9999995 on, below that one order exactly when none is unended, something is held, the position closed first has a price and the key is free |
| LiquidationTerms.OpenedOrderIsBest | apps/api/src/workers/liquidation.worker.ts:111-170 | in every run the order an evaluation opens takes the position closed first to exactly zero; filled whole at the mark it closes it, and no other single close leaves a higher level while equity is not negative |
| LiquidationSpec.WorkerThresholds | apps/api/src/workers/liquidation.worker.ts:54-90 | rounding moves the worker's thresholds to 119.99995 and 99.99995, so part of what is reported as forced liquidation is left alone |
| LiquidationSpec.TopIsUnique | apps/api/src/workers/liquidation.worker.ts:134-144 | the ranking has one winner |
| Execution.OnlyActivationActivates | apps/api/src/services/order.service.ts:229-259 | no other service action activates a STOP_LIMIT order |
| ExactlyOnce.JobEffect | apps/api/src/services/order.service.ts:274-317 | a delivered job changes the database exactly when the order is fillable, stands where the job starts, and the price is not negative |
| ExactlyOnce.PipelineInvariant | apps/api/src/engine/trading-engine.ts:283-312 | every interleaving keeps chains, snapshots, jobs and fills honest |
| ExactlyOnce.FilledExactlyOnce | apps/api/src/services/order.service.ts:261-317 | executions are exactly c(1)..c(m), the filled quantity is c(m) and the sum of the fills, at most what was requested |
| ExactlyOnce.OnlyCurrentJobCounts | apps/api/src/engine/trading-engine.ts:480-532 | only a job dispatched from the current filled quantity changes state, and it was priced from exactly that quantity |
| ExactlyOnce.PricesHonoured | apps/api/src/engine/trading-engine.ts:411-478 | fill n+1 traded at an observed tick, at slippage level n; a buy never above its limit and a sell never below it; a stop order at a tick at or above its stop for a buy, at or below it for a sell; a STOP_LIMIT order after such a tick |
| EngineTerms.FillsInNumbers | apps/api/src/engine/trading-engine.ts:457-500 | the same of every fill in plain numbers: half the listed spread and one listed step per full depth done away from an observed tick, and what was left, a depth at most |
| EngineTerms.SentExactly | apps/api/src/engine/trading-engine.ts:411-532 | an iff over tick, stop, limit, kind and side for each thing a waiting entry can do: send a job (and which), ask for its activation, or go because nothing is left |
| EngineTerms.ResumedExactly | apps/api/src/engine/trading-engine.ts:436-469 | the same once an activation came back: the limit of the snapshot the tick met decides, the job is that of the returned row |
| ExactlyOnce.WholeOrderCost | apps/api/src/engine/trading-engine.ts:486-517 | a filled order at one reference price took ceil(requested/depth) fills and moved the closed-form amount |
| Solvency.ReachIsRun | apps/api/src/workers/execution.worker.ts:82-91 | whatever surrounds it, the database only goes through service calls |
| Solvency.NextMovesAvailable | apps/api/src/services/order.service.ts:133-141 | with limit buys, available cash falls only when a buy is placed, and not below zero |
| Solvency.SolventThroughout | apps/api/src/services/order.service.ts:320-341 | with limit buys, 0 <= lockedCash <= totalCash in every reachable state of a cash portfolio |
| Solvency.BuyWithinReservation | apps/api/src/services/order.service.ts:323-333 | a buy fill leaves no less available exactly when its price is within the reservation price |
| Scenarios.MarketBuyCanOverdraw | apps/api/src/services/order.service.ts:77-80 | a run of a fresh system - placement, routing, one tick, one job - that takes a cash account of 105 to -15 |
| Dispatch.DispatchAdvancesExactly | apps/api/src/engine/trading-engine.ts:438-508 | in every run a dispatch for a watched entry reaches further than the entry's last one exactly when the row it is built from has caught up with that; otherwise this execution was sent before; a resumption's row has nothing filled |
| Dispatch.EverythingFollowed | apps/api/src/engine/trading-engine.ts:480-532 | in every run whatever is filled of an order, and whatever an engine expects of it, is c(i) for some i, and c(1)..c(i) were all sent |
| Dispatch.SoundExactly | apps/api/src/engine/trading-engine.ts:438-469 | a READY entry expects no more than its row has filled, a QUEUED one more; every step of every run keeps that, except exactly a resumption outside the limit of an entry that has caught up |
| Dispatch.SoundWithoutSetback | apps/api/src/engine/trading-engine.ts:375-404 | a run without such a resumption keeps every entry so, hence every tick that dispatches advances |
| Scenarios.ResumptionRepeats | apps/api/src/engine/trading-engine.ts:434-469 | a run of a fresh system in which the evaluation that awaited the activation sends the queued slice again |
| Scenarios.SetBackRepeats | apps/api/src/engine/trading-engine.ts:434-469 | a run in which it sets a caught-up entry back, and the next tick sends a slice that is already filled |
| EngineSpec.RowNeverStepsBack | apps/api/src/engine/trading-engine.ts:292-310 | an arriving row leaves a queued entry as it is exactly when the row has not caught up; any other entry takes it over and is sound; only a READY entry is taken back, and exactly by a row older than its target |
| EngineRefinement.TickIsObservations | apps/api/src/engine/trading-engine.ts:387-404 | one pass of the tick loop - the book, the jobs and the activations it asks for - is a run of the pipeline's single-order steps |
| EngineRefinement.ReconciliationIsRun | apps/api/src/engine/trading-engine.ts:217-281 | so is a reconciliation pass: deliveries of the orphans, evictions of the ghosts, and after a recovery one tick pass per owned book with a price |
| PositionServices.PositionService.CheckPosition | apps/api/src/services/position.service.ts:5-26 | the position when enough is free, none for a margin account without one, else the refusal |
| PositionServices.PositionService.LockPosition | apps/api/src/services/position.service.ts:28-47 | locks exactly the quantity, opening an empty position where margin allows |
| PositionServices.PositionService.AdjustOnBuy | apps/api/src/services/position.service.ts:49-137 | all branches together are one signed average-cost trade |
| PositionServices.PositionService.AdjustOnSell | apps/api/src/services/position.service.ts:139-220 | the mirrored trade, less the lock, or the refusal |
| LedgerServices.LedgerService.ValidateEntries | apps/api/src/services/ledger.service.ts:16-37 | refuses exactly negative amounts, then exactly unbalanced assets |
| LedgerServices.LedgerService.RecordTransaction | apps/api/src/services/ledger.service.ts:42-65 | appends the records exactly when they are valid |
| LedgerServices.LedgerService.ReconcilePortfolioCash | apps/api/src/services/ledger.service.ts:73-98 | the named account's balance, the portfolio's cash, and whether they agree; for the owner's cash account that is the reconciliation law |
| LedgerServices.LedgerService.ReconcilePosition | apps/api/src/services/ledger.service.ts:104-133 | the same for a position and the asset symbol named, with the refusal of a symbol that is not the position's |
| OrderServices.OrderService.PlaceOrder | apps/api/src/services/order.service.ts:48-191 | the checks in order, with the margin valuation made inside, the reservations, the idempotent answer, and rollback; in numbers, `OrderTerms.PlacementOutcome` |
| OrderServices.OrderService.MarkOrderPending | apps/api/src/services/order.service.ts:193-227 | PENDING in session, expiry outside, the refusals; by status, `OrderTerms.RoutingOutcome` |
| OrderServices.OrderService.ActivateStopLimit | apps/api/src/services/order.service.ts:229-259 | activates a PENDING order once |
| OrderServices.OrderService.ProcessFill | apps/api/src/services/order.service.ts:261-407 | ignored, refused and rolled back, or applied with all its writes; in numbers, `OrderTerms.FillOutcome` and `FillWrites` |
| OrderServices.OrderService.CancelOrder | apps/api/src/services/order.service.ts:409-474 | releases all that remains and cancels, or refuses; in numbers, `OrderTerms.CancelAndExpireOutcome` |
| OrderServices.OrderService.ExpireOrder | apps/api/src/services/order.service.ts:476-542 | releases all that remains and expires, or refuses |
| ValuationServices.PortfolioValuationService.GetValuation | apps/api/src/services/portfolio-valuation.service.ts:38-155 | the loop's totals are the sums over the portfolio's positions, every derived figure is shown with four decimals, and the report is stale exactly when an open position has no fresh price; without a cache it throws exactly at an open position; in numbers, `ValuationTerms.ReportOnOne` and `MarkIsHalfASpreadWorse` |
| LiquidationWorkers.LiquidationWorker.Sort | apps/api/src/workers/liquidation.worker.ts:134-142 | a ranked permutation of the candidates |
| LiquidationWorkers.FirstIsTop | apps/api/src/workers/liquidation.worker.ts:144-145 | the first of the sorted candidates is the one the ranking puts first |
| LiquidationWorkers.LiquidationWorker.EvaluatePortfolio | apps/api/src/workers/liquidation.worker.ts:49-182 | cancels, does nothing, or opens one order by the shown margin level, as specified; in numbers, `LiquidationTerms.EvaluationOutcome` |
| EodSweep.EodSweepService.ExecuteSweep | apps/api/src/services/eod-sweep.service.ts:76-100 | afterwards no order is active, nothing is locked, and no expiry failed |
| TradingEngines.TradingEngine.AddOrder | apps/api/src/engine/trading-engine.ts:283-312 | the book after a snapshot arrives; a queued entry waits until the row has caught up |
| Dispatch.LostSymbolIsSilent | apps/api/src/engine/trading-engine.ts:147-152 | after a lease is lost, until the engine is started again, it watches nothing of the symbol and no step of it sends a job for an order of the symbol |
| TradingEngines.TradingEngine.EvaluateOrder | apps/api/src/engine/trading-engine.ts:411-478 | stop, activation request, limit and market decisions, with the dispatch; by tick, stop, limit and side, `EngineTerms.SentExactly` |
| TradingEngines.TradingEngine.ResumeOrder | apps/api/src/engine/trading-engine.ts:436-469 | what follows the activation: the fence, the row it returned taken over, the limit checked against the snapshot the tick met, the dispatch |
| TradingEngines.TradingEngine.TriggerExecution | apps/api/src/engine/trading-engine.ts:480-532 | one slice of at most a depth, named by the quantity it reaches; nothing for a symbol no longer owned; only the job for an entry no longer in its book |
| TradingEngines.TradingEngine.HandleTick | apps/api/src/engine/trading-engine.ts:375-404 | each entry ends as if it had met the tick alone; exactly the slices and activations this calls for are sent, one per order at most |
| TradingEngines.TradingEngine.Reconcile | apps/api/src/engine/trading-engine.ts:217-281 | in the owned books known entries are kept, orphans taken in, ghosts evicted, also when a lease was lost while the query ran; after a recovery, and only then, every owned book is evaluated at its fresh price |
| EngineLeases.TimedExclusion | apps/api/src/engine/trading-engine.ts:99-152 | at most one engine that has not begun to close holds a grant or renewal of the last 15 s, and Redis agrees |
| EngineLeases.OnlyTheHolderMovesALease | apps/api/src/engine/trading-engine.ts:30-44 | a held lease is extended only by its holder's heartbeat and deleted only by its release |
| EngineLeases.BeliefIsNotEnough | apps/api/src/engine/trading-engine.ts:123-138 | without the time bound two engines can believe at once |
| Leases.OthersLeaseUntouched | apps/api/src/main.feed.ts:28-42 | heartbeat and release scripts act exactly on the caller's own live lease |
| FeedLeases.FeedExclusion | apps/api/src/main.feed.ts:72-118 | at most one feed owns feed:global on a grant of the last 15 s asked for after its own last release, and Redis agrees |
| FeedLeases.BeliefIsRightExactly | apps/api/src/main.feed.ts:88-118 | a feed that believes on a grant of the last 15 s is Redis's holder exactly when its last release was performed before its last grant |
| FeedLeases.LateGrantBreaksExclusion | apps/api/src/main.feed.ts:63-101 | a run, with the heartbeat started after the first attempt and beating every 10 s, in which a late answer gives two running feeds the ownership |
| Leases.GrantLastsFifteenSeconds | apps/api/src/engine/trading-engine.ts:30-44 | for 15 s after a grant or renewal only its holder is served, from then on anybody is granted the lease; a release frees it at once |
| LeaseServices.EngineLeaseHolder.AcquireLeases | apps/api/src/engine/trading-engine.ts:99-112 | starts exactly when no assigned lease is held and none is listed twice |
| LeaseServices.EngineLeaseHolder.Heartbeat | apps/api/src/engine/trading-engine.ts:123-138 | a symbol is given up exactly when its refusal is heard; the lease is prolonged whenever the script was performed, heard of or not |
| LeaseServices.EngineLeaseHolder.ReleaseLeases | apps/api/src/engine/trading-engine.ts:114-121 | every owned lease released, others untouched |
| LeaseServices.FeedLeaseService.TryAcquireLease | apps/api/src/main.feed.ts:72-86 | ownership follows the grant the feed hears of, and the first one starts the simulations if the session is open |
| LeaseServices.FeedLeaseService.Heartbeat | apps/api/src/main.feed.ts:88-118 | acquire, prolong or give up by ownership and session; an error ends ownership; simulations run exactly from a grant in session to the end of that ownership |
| LeaseServices.FeedLeaseService.Stop | apps/api/src/main.feed.ts:149-158 | simulations are stopped; once the release was performed the feed holds feed:global exactly if it held it without knowing; no other feed's hold is touched |
| LeaseRefinement.StartIsRun | apps/api/src/main.feed.ts:63-86 | start()'s first attempt is the machine's boot, the command's arrival or loss, and the answer's |
| LeaseRefinement.HeartbeatIsRun | apps/api/src/main.feed.ts:88-118 | a heartbeat is its timer event, and the way of the command it sends |
| LeaseRefinement.StopIsRun | apps/api/src/main.feed.ts:149-158 | so is stop() |
| LeaseRefinement.AcquiringIsRun | apps/api/src/engine/trading-engine.ts:99-112 | acquiring a symbol is a run of the engine machine: a granted process believes with Redis behind it, a refused one is gone |
| LeaseRefinement.BeatingIsRun | apps/api/src/engine/trading-engine.ts:123-138 | a heartbeat is one, with its command or answer lost too: the belief is renewed to the full 15 s, given up, or left as it was |
| LeaseRefinement.ClosingIsRun | apps/api/src/engine/trading-engine.ts:114-121 | releasing is one: the process believes no more, and Redis holds nothing for it |
| Outbox.PublishedAfterQueued | apps/api/src/workers/outbox.worker.ts:102-123 | in every run an event is PUBLISHED only after its job was queued |
| Outbox.QuickClaimantsDeliverOnce | apps/api/src/workers/outbox.worker.ts:70-144 | if claimants finish or die within a minute, no event has two holders, and PUBLISHED can be left exactly while a publisher that never heard of its own final update is still at work |
| Outbox.HeldIsDueExactly | apps/api/src/workers/outbox.worker.ts:70-82 | a held event with one holder can be claimed again exactly once its claim is a minute old and it is not published |
| Outbox.OneHolderExactly | apps/api/src/workers/outbox.worker.ts:70-82 | over every run, each event has at most one holder throughout exactly when no claim overtakes a claimant of a minute ago or more |
| Outbox.UndoneExactly | apps/api/src/workers/outbox.worker.ts:118-144 | in every run a published event can lose its publication exactly while some worker still holds it, and only by that worker's failure |
| Outbox.UndoneWithoutOvertaking | apps/api/src/workers/outbox.worker.ts:118-144 | in a run without overtaking that worker is exactly a publisher whose final update was committed and its answer lost |
| Outbox.LostAnswerUndoes | apps/api/src/workers/outbox.worker.ts:118-144 | a run with one quick claimant in which that happens |
| Outbox.SecondHolderUndoes | apps/api/src/workers/outbox.worker.ts:118-144 | whenever an event has two holders, one can publish it and the other take that back |
| Outbox.SlowClaimantBreaksBoth | apps/api/src/workers/outbox.worker.ts:118-144 | a run with a slower claimant that does both |
| Outbox.DueAfterFailureExactly | apps/api/src/workers/outbox.worker.ts:129-144 | a failed attempt leaves the event due at once exactly when the retries are used up |
| Outbox.RetryBoundExactly | apps/api/src/workers/outbox.worker.ts:129-144 | over every run, attempts stay within MAX_RETRIES exactly when no event that was given up is claimed and fails again |
| Outbox.AttemptsUnbounded | apps/api/src/workers/outbox.worker.ts:129-137 | for every n some run makes n attempts on one event |
| Outbox.ClaimSchedules | apps/api/src/workers/outbox.worker.ts:70-82 | a claim schedules its rows a minute ahead and changes nothing else |
| Outbox.DueAgainExactly | apps/api/src/workers/outbox.worker.ts:128-144 | in every run a failed event can be claimed again 2, 4, 8 and 16 s after its first four failures, and at once from the fifth on |
| OutboxWorkers.BatchIsTheOldestFifty | apps/api/src/workers/outbox.worker.ts:73-78 | the batch is the due rows with fewer than fifty older due ones |
| OutboxWorkers.OutboxWorker.ClaimBatch | apps/api/src/workers/outbox.worker.ts:70-82 | marks exactly the oldest due rows, a batch at most, and returns them in no promised order |
| OutboxWorkers.OutboxWorker.ProcessOutbox | apps/api/src/workers/outbox.worker.ts:65-154 | in whatever order the rows are returned, the pass is a run of the outbox machine; exactly the batch is published or rescheduled, each event at the end of its own turn, whether it fails before its job was queued, after that, or with the answer of its final update lost; the published ones are counted |
| Candles.BoundaryMonotone | apps/api/src/services/market-candle.service.ts:104-136 | later minutes never fall in an earlier bucket |
| Candles.InBucket | apps/api/src/services/market-candle.service.ts:113-126 | a session minute lies within its bucket's minutes |
| Candles.AggregationComposes | apps/api/src/services/market-candle.service.ts:54-102 | aggregating finely and then coarsely is aggregating coarsely |
| Candles.StagesCompose | apps/api/src/services/market-candle.service.ts:54-136 | 1m to 5m to 15m to 1h to 1d gives the same candles as going directly |
| Candles.BucketsAscend | apps/api/src/services/market-candle.service.ts:66-99 | output timestamps strictly increase |
| Candles.VolumeConserved | apps/api/src/services/market-candle.service.ts:71-78 | total volume is conserved |
| Candles.BucketCapacity | apps/api/src/services/market-session.service.ts:64-70 | unique session minutes of one bucket are at most its capacity |
| Candles.RowLimitInvisible | apps/api/src/services/market-candle.service.ts:23-52 | the answer is the last min(limit, 1000) buckets of aggregating the whole history |
| CandleTerms.BucketsOfTheDay | apps/api/src/services/market-candle.service.ts:104-136 | where buckets lie: on the minute's own day, from 09:15 on in steps of 5, 15 and 60 minutes, one a day for daily ones; a session minute lies in its bucket |
| CandleTerms.BucketsHoldTheirRows | apps/api/src/services/market-candle.service.ts:65-99 | every aggregated candle has the first open, greatest high, least low, last close, total volume and closing state of exactly the rows counted to its bucket |
| CandleTerms.RowLimitNeeded | apps/api/src/services/market-candle.service.ts:26-41 | and it reads no row too many: with a full bucket any fewer rows change the answer |
| CandleTerms.AnswerSize | apps/api/src/services/market-candle.service.ts:23-52 | the answer is the newest buckets, as many as asked for and at most a thousand |
| CandleServices.MarketCandleService.AggregateCandles | apps/api/src/services/market-candle.service.ts:54-102 | the map-grouping loops compute the in-order aggregation |
| CandleServices.MarketCandleService.FindCandles | apps/api/src/services/market-candle.service.ts:23-52 | reads the newest rows, reverses, aggregates and cuts, for any limit |
| TickFold.CandleSummarizesTicks | apps/api/src/workers/ohlcv-aggregator.worker.ts:76-101 | after any delivery sequence a candle holds the first, greatest, least and latest price received |
| TickFold.VolumeOverDistinct | apps/api/src/workers/ohlcv-aggregator.worker.ts:77-97 | its volume is the sum over distinct tick ids |
| TickFold.DeliveryOrderInvisible | apps/api/src/workers/ohlcv-aggregator.worker.ts:73-101 | volume, high and low do not depend on order or repetition |
| TickTerms.ReceivedInMinute | apps/api/src/workers/ohlcv-aggregator.worker.ts:57-59 | after any delivery sequence the ticks of a candle are of its symbol, of its minute in milliseconds, and of the session |
| TickTerms.ReceivedExactly | apps/api/src/workers/ohlcv-aggregator.worker.ts:45-51 | a delivered tick is received by a candle exactly when its time of day lies from 09:15:00 up to but not including 15:30:00 |
| TickTerms.DeliveredIsReceived | apps/api/src/workers/ohlcv-aggregator.worker.ts:76-82 | also when an id was used for two ticks: one of them is received |
| TickTerms.ClosedByClock | apps/api/src/workers/ohlcv-aggregator.worker.ts:63-71 | a candle is closed exactly when, once it was there, the closing statement ran of a session tick from after its minute |
| TickTerms.TraceExactly | apps/api/src/workers/ohlcv-aggregator.worker.ts:40-101 | a message under a new id leaves its receipt, and its price and volume in the candle of its minute, exactly when all it needs is there and its time is one of the session; the number zero counts as missing |
| TickFold.CandleIsProper | apps/api/src/workers/ohlcv-aggregator.worker.ts:93-98 | low <= open, close <= high |
| TickFold.ClosedExactly | apps/api/src/workers/ohlcv-aggregator.worker.ts:63-71 | after any delivery sequence a candle is closed exactly when the closing statement of a later minute's tick of the symbol ran after the candle's first tick was received |
| TickFold.ClosedForGood | apps/api/src/workers/ohlcv-aggregator.worker.ts:63-101 | and is closed in every continuation |
| TickFold.RowsInSession | apps/api/src/workers/ohlcv-aggregator.worker.ts:47-51 | only session minutes have candles |
| CandleHistory.StoredAnswer | apps/api/src/services/market-candle.service.ts:23-52 | after any delivery of ticks, what the row-limited query answers from the rows stored of a symbol is the last buckets of aggregating all of them |
| CandleHistory.Listing | apps/api/src/services/market-candle.service.ts:30-40 | there is a list of a symbol's stored rows by minute |
| CandleHistory.ListingIsUnique | apps/api/src/services/market-candle.service.ts:30-40 | and only one |
| TickFold.OhlcvAggregatorWorker.HandleMessage | apps/api/src/workers/ohlcv-aggregator.worker.ts:38-101 | an incomplete message leaves no trace; of a complete one the handler's two statements, duplicates dropped; by the clock, `TickTerms.TraceExactly` |

## Left out

- Conservation.NavIdentity: exact reals; the code rounds prices, averages and cash to four decimals when it stores them.
- ExactlyOnce.FilledExactlyOnce: safety only; nothing in the engine guarantees that a lost route message is ever made good.
- EngineRefinement.TickIsObservations: an activation asked for by the tick is carried on by later steps, as its reply comes later.
- TradingEngines.TradingEngine.ResumeOrder: engine entries are values, so whether an evaluation still shares its entry with the book is a parameter here and in `System`.
- TradingEngines.TradingEngine.Reconcile: the re-evaluation meets all books at the prices read once, one order after the other; hydration is the same loops over AddOrder and EvaluateOrder.
- LiquidationWorkers.LiquidationWorker.EvaluatePortfolio: the symbol tie-break compares code units.
- LiquidationWorkers.LiquidationWorker.Sort: the library sort is an insertion sort here.
- LeaseServices.FeedLeaseService.Stop: the connection's end and the process exit that follow.
- OutboxWorkers.OutboxWorker.ProcessOutbox: a pass in which the rescheduling update itself fails; in the machine that is the worker's death.
- FeedLeases.FeedExclusion: each feed's commands are performed at most once and in the order it sent them; resending after a broken connection is not modelled.
- Greedy.GreedyIsBest: the valuation and the ranking see the same prices; the worker reads them one after the other.
- TradingEngines.TradingEngine.RemoveOrder: only the form with a symbol, the one every caller uses.
- The sweep's once-a-day lease and the clock that starts it.
- Margin reservation laws: `lockedMargin` is not conserved, as the reservation is never stored on the order.
- Execution of liquidation orders: they are created RECEIVED and nothing moves them on; only selection and creation are modelled.
- Outbox rows written inside the order transactions, event payloads, metrics, tracing and logging.
- The job queue's de-duplication by job id: any queued job may be delivered any number of times, which covers it.
- The session check of the execution worker: a rejected job is one that is not delivered.
- How the price cache ages, the simulated prices themselves, and end-of-day snapshots.
- Authentication, API keys, rate limits, controllers, webhooks, web sockets and the web front end.
