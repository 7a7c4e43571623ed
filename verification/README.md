# AlgoCraft in Dafny

A verified model of AlgoCraft, an NSE trading engine that keeps money in integer paise. Each module
follows one component of the engine. Code that updates objects or loops is modelled by classes and
methods, each proved to do what a specification function says; the theorems are about those functions.

* **Market-data cache** (`SessionCalendar`, `Chunker`, `MarketCache`, `CacheCoverage`, `CacheRequests`,
  `CacheServe`, `CacheLog`, `CacheWrites`, `CacheSafety`, `CacheWitness`, `DataFetch`, `StoreRefinement`,
  `StoreRuns`). A coverage row and a store of day blobs in front of a vendor. The vendor is a fixed
  history of which only the bars up to the present moment are visible. The coverage row is always
  truthful; it covers no missing day exactly when requests leave no gaps, although Notes/PHASE5.md:89
  asks for filling in between. What is served is what the vendor has exactly when no requested bar lies
  on a skipped date. This holds down to the bytes: after every write of every run the ordered store
  refines the cache's map, whatever other tickers wrote. Witness lemmas show both ways a day gets lost.
* **Capital protocol** (`Orders`, `Exchange`, `Ledger`, `Holdings`, `Risk`, `Scheduler`, `Container`,
  `Manager`, `Workbooks`, `Router`, `Evaluations`, `RunProtocol`, `Audit`, `RunWitness`, `Ring`,
  `RunManagement`, `EvaluatedRun`). A workbook lends capital, the router splits it over winning
  evaluations, containers trade it, everything is closed and settled. A strategy is any function of what
  it has seen. `Audit` reads the rules of trading off the ledger's list of fills, in figures. The return
  of a negative settlement is refused by the workbook although the run reports it as returned;
  `RunWitness` gives such a run.
* **Five-thread runtime** (`Phase0`, `Phase0Progress`, `Phase0Kept`). Every atomic operation of every
  loop is one step, a push may be refused at any time, and a run is any sequence of steps; for liveness
  it is any fair infinite one.
* **Backtest loop** (`Backtesting`, `BacktestAudit`). The report is a function of the list of fills. The
  reported drawdown leaves out the final sale; when that shows is characterised exactly. **Strategy**
  (`UpClip`), **codecs and keys** (`Packing`, `SessionKeys`, `BarStore`, `Base64Url`, `Tokens`). The
  token's expiry check accepts the second of expiry itself, where section 4.1.4 of RFC 7519 would not.
  The encoding is the unpadded one of section 5 of RFC 4648.

Paise, shares and timestamps are unbounded integers; only the packed blob and the token numbers have the
64-bit range of the source. Divisions truncate toward zero as in the source. Clock readings, the vendor's
history, the keyed hash, the registered strategies and the sorted tape are parameters.

In the capital modules a `ghost` predicate `DeskInv` collects what links containers, ledger and risk
engine; in the cache modules `Sound` says that the coverage row is truthful and `HoldsAll` that the range
has no missing key, with `strict` asking for every session and otherwise for those with vendor bars.

## Model

| member | source | states |
|---|---|---|
| CacheRequests.EnsureIff | src/market_data/data_fetch_service.cpp:100-142 | From any truthful state and for any request, `ensure_data_available` leaves a truthful coverage row (every key is a session of the range or the live day, closed days hold the vendor's full day, the range ends before today, a live day follows directly on it); a range without missing keys stays so if and only if the request fits: no needed session between the request and the range, and for a today-only request none between the range's end and today. |
| CacheRequests.RunSound | src/market_data/data_fetch_service.cpp:100-142 | Over every sequence of requests with a clock that never turns back, starting from an empty database, the coverage row stays truthful whatever is requested. |
| CacheRequests.RunHoldsAll | src/market_data/data_fetch_service.cpp:179-338 | Over every such sequence whose requests all fit, no session of `[first_date, last_date]` that must be stored is missing, both for sessions with vendor bars and, when the vendor's history has no holes, for all sessions. |
| CacheCoverage.FillIff | src/market_data/data_fetch_service.cpp:201-236 | The closed fill keeps the range complete if and only if the request leaves no gap towards it. |
| CacheCoverage.FillKeepsSound | src/market_data/data_fetch_service.cpp:201-236 | The closed fill keeps the coverage row truthful whatever the request. |
| CacheCoverage.FillClosedWrites | src/market_data/data_fetch_service.cpp:217-235 | Exactly the uncovered sessions of the request are stored, each with the vendor's full day, except those before the vendor's first bar on the left. |
| CacheCoverage.FetchChunksWrite | src/market_data/data_fetch_service.cpp:285-338 | Whatever the chunking, a fetch adds full vendor days and stretches the row over exactly those days. |
| CacheRequests.SealKeeps | src/market_data/data_fetch_service.cpp:179-199 | Sealing appends exactly the finished live day to the closed range, refetched in full, or does nothing, and never loses a key. |
| CacheRequests.DiscoverKeeps | src/market_data/data_fetch_service.cpp:238-266 | Discovery on an empty database stores every session from the vendor's first bar to the last closed session. |
| CacheRequests.RefreshIff | src/market_data/data_fetch_service.cpp:268-283 | Refreshing stores today as the live day only; it keeps the range complete if and only if no needed session lies between the range's end and today. |
| CacheRequests.ClosedIff | src/market_data/data_fetch_service.cpp:124-135 | The closed part of a request keeps the range complete if and only if it fits; when it reaches the last closed session nothing needed is left before today. |
| CacheRequests.FirstAlwaysFits | src/market_data/data_fetch_service.cpp:124-126 | An open-ended request on a known ticker, which starts where the range starts, always fits. |
| CacheServe.TransparentIff | src/market_data/data_fetch_service.cpp:144-177 | From any truthful state and for every request, what `load_bars` serves is exactly the vendor's bars of the range in order, today's as of a refresh at most 1,800,000,000,000 ns ago, if and only if no such bar lies on a date that the sealed range covers without a key or, for a request without lower bound, that precedes the range. |
| CacheServe.Transparent | src/market_data/data_fetch_service.cpp:144-177 | From any truthful range without missing keys, and with an explicit start or empty coverage, that condition holds: `load_bars` is transparent for every request, whether or not it reaches today. |
| CacheServe.RunServes | src/market_data/data_fetch_service.cpp:100-177 | After any sequence of fitting requests from an empty database, the next request, fitting or not, is answered with exactly the vendor's bars of its range if it has an explicit start or is the first to find bars. |
| CacheServe.RunLive | src/market_data/data_fetch_service.cpp:268-283 | Over every run the live day holds exactly the bars that existed when it was last fetched. |
| CacheServe.RepeatIsFree | src/market_data/data_fetch_service.cpp:201-236 | A request whose closed sessions are covered, with a live copy of today at most 1,800,000,000,000 ns old if today is wanted, changes nothing and makes no vendor call. |
| CacheServe.TodayAskedIff | src/market_data/data_fetch_service.cpp:77-87 | A request that wants today asks the vendor for it, exactly once, if and only if there is no live copy of today or it is older than 30 minutes, written out in nanoseconds; what is known of today is then as of now, and else as of that copy. Other requests never ask for today. |
| CacheServe.FillCalls | src/market_data/data_fetch_service.cpp:285-298 | The closed fill asks the vendor exactly once per chunk of the uncovered days. |
| CacheServe.ServeSelects | src/market_data/data_fetch_service.cpp:160-176 | Concatenating filtered full days in date order equals selecting from the whole history. |
| CacheWrites.RightExtensionSafe | src/market_data/data_fetch_service.cpp:294-336 | While the range is extended to the right, over any number of chunks, no single write lists a needed day without a key. |
| CacheWrites.LeftExtensionSafeIff | src/market_data/data_fetch_service.cpp:294-336 | When the range is extended to the left, oldest chunk first, every intermediate write is complete if and only if no needed day comes in a later chunk than one with vendor bars. |
| CacheWrites.LeftExtensionDense | src/market_data/data_fetch_service.cpp:294-336 | For a history without holes that reaches back to the first requested day this means that one chunk suffices. |
| CacheWrites.LeftDaysPrecede | src/market_data/data_fetch_service.cpp:217-235 | The days a request adds before the range are such an extension if no needed day lies between its end and the range. |
| CacheSafety.EnsureSafeIff | src/market_data/data_fetch_service.cpp:100-142 | Write by write: after every single `put_session` and row of a request the range lists no needed day without a key if and only if the request fits and what it adds before the range needs one chunk only. |
| CacheSafety.RunSafeIff | src/market_data/data_fetch_service.cpp:100-338 | The same over every run of requests with a clock that never turns back: every intermediate state of every request is complete if and only if all requests fit in that sense. |
| CacheSafety.FillSafeIff | src/market_data/data_fetch_service.cpp:201-236 | The closed fill is complete after every write if and only if it leaves no gap and needs one chunk before the range. |
| CacheSafety.FreshSafe | src/market_data/data_fetch_service.cpp:285-338 | The first fetch of all, over any number of chunks, is complete after every write. |
| CacheLog.EnsureLeads | src/market_data/data_fetch_service.cpp:100-142 | The log of a request's writes leads from the store it meets to the store it leaves: a put changes its own date, a row none. |
| CacheWitness.SkippingRequestLosesDay | src/market_data/data_fetch_service.cpp:217-235 | For any three session days with vendor bars, asking for the first and then the third lists the second as covered without storing it. |
| CacheWitness.TodayAloneLosesDay | src/market_data/data_fetch_service.cpp:276-279 | A today-only request moves `last_date` over unfetched sessions. |
| CacheWitness.LostDays | src/market_data/data_fetch_service.cpp:217-279 | Both losses on concrete dates of September 2026. |
| DataFetch.DataFetchService.EnsureDataAvailable | src/market_data/data_fetch_service.cpp:100-142 | The imperative service reaches exactly the state, by exactly the writes in their order, that the cache theorems speak about, for every clock and request. |
| DataFetch.DataFetchService.LoadBarsAfter | src/market_data/data_fetch_service.cpp:144-177 | End to end on the object: on a service that has met only fitting requests, the bars returned are exactly the vendor's of the range, today's at most 1,800,000,000,000 ns old, and its log continues that of the run. |
| DataFetch.DataFetchService.LoadBars | src/market_data/data_fetch_service.cpp:144-177 | Serves exactly the bars of the stored sessions in the range, in order, from the state reached by the fetch. |
| DataFetch.DataFetchService.FetchAndStore | src/market_data/data_fetch_service.cpp:285-338 | Final state and the log of every intermediate write are those of the specification. |
| DataFetch.DataFetchService.SealStaleLive | src/market_data/data_fetch_service.cpp:179-199 | Leaves the sealed state and logs its writes. |
| DataFetch.DataFetchService.FillClosed | src/market_data/data_fetch_service.cpp:201-236 | Leaves the filled state and logs its writes; the left and the other days are split as the source splits them. |
| DataFetch.DataFetchService.DiscoverClosed | src/market_data/data_fetch_service.cpp:238-266 | Leaves the discovered state and logs its writes, the row last. |
| DataFetch.DataFetchService.RefreshToday | src/market_data/data_fetch_service.cpp:268-283 | Leaves the refreshed state and logs its writes; it does nothing exactly when the live day is today and was fetched at most 1,800,000,000,000 ns ago, and otherwise makes one vendor call and stamps the row with the present time. |
| Chunker.GreedyPartitions | src/market_data/data_fetch_service.cpp:33-52 | The chunks concatenate to the day list and each spans at most 28 calendar days. |
| Chunker.GreedyIsShortest | src/market_data/data_fetch_service.cpp:33-52 | No partition of the days into runs that fit has fewer chunks. |
| Chunker.ChunkDays | src/market_data/data_fetch_service.cpp:33-52 | The loop computes that greedy cut. |
| Chunker.CalendarSpanDays | src/market_data/data_fetch_service.cpp:25-31 | The loop counts the calendar days of a closed interval: the difference of day numbers plus one. |
| SessionCalendar.NextAddsOneDay | include/algocraft/domain/session_calendar.hpp:48-64 | `next_calendar_day` raises the proleptic Gregorian day number by exactly one, for every valid date. |
| SessionCalendar.PrevSubtractsOneDay | include/algocraft/domain/session_calendar.hpp:74-89 | `prev_calendar_day` lowers it by exactly one. |
| SessionCalendar.NextPrevInverse | include/algocraft/domain/session_calendar.hpp:48-89 | The two are mutual inverses. |
| SessionCalendar.OrderIsDayOrder | include/algocraft/domain/session_date.hpp:18-23 | The ymd encoding orders dates exactly as the calendar does. |
| SessionCalendar.NothingBetween | include/algocraft/domain/session_calendar.hpp:48-64 | No date lies strictly between a date and its successor. |
| SessionCalendar.WeekdayIsDayNumber | include/algocraft/domain/session_calendar.hpp:10-19 | Sakamoto's weekday is the day number modulo 7 and advances by one a day. |
| SessionCalendar.SessionWithinFour | include/algocraft/domain/session_calendar.hpp:66-97 | Of four consecutive dates one is a session, so the session searches stop within four steps. |
| SessionCalendar.SessionIff | include/algocraft/domain/session_calendar.hpp:21-46 | A date is a session if and only if its day number modulo 7 is that of Monday to Friday and it is none of the nine listed holidays. |
| SessionCalendar.PrevSessionIsGreatest | include/algocraft/domain/session_calendar.hpp:91-97 | `prev_session_day` is the greatest session day before a date. |
| SessionCalendar.NextSessionIsLeast | include/algocraft/domain/session_calendar.hpp:66-72 | `next_session_day` is the least session day after a date. |
| SessionCalendar.NextSessionDay | include/algocraft/domain/session_calendar.hpp:66-72 | The forward search computes the least session after a date. |
| SessionCalendar.PrevSessionDay | include/algocraft/domain/session_calendar.hpp:91-97 | The backward search computes the greatest session before a date. |
| SessionCalendar.LastClosedSession | include/algocraft/domain/session_calendar.hpp:99-108 | The last closed session is the greatest session day before today, whether or not today is one. |
| SessionCalendar.SessionListIsExact | include/algocraft/domain/session_calendar.hpp:110-121 | `session_days` lists exactly the session days of an interval, ascending. |
| SessionCalendar.SessionDays | include/algocraft/domain/session_calendar.hpp:110-121 | The loop computes that list. |
| SessionCalendar.IstOrder | include/algocraft/domain/session_date.hpp:39-44 | A timestamp belongs to an earlier IST date exactly when it precedes that date's IST midnight. |
| SessionCalendar.IstDate | include/algocraft/domain/session_date.hpp:39-44 | The date of a timestamp has the day number 719,163 plus the whole days of the clock 330 minutes ahead of UTC. |
| Ledger.PerformConserves | src/portfolio/portfolio_ledger.cpp:28-115 | Every ledger operation keeps: allocated and paper are the principal sums of real and other allocations, and available + allocated + P&L released while not real = borrowed + realized. |
| Ledger.PerformAll | src/portfolio/portfolio_ledger.cpp:28-115 | Conservation over any sequence of operations. |
| Ledger.SettledIff | include/algocraft/portfolio/portfolio_ledger.hpp:32-34 | `settled()` holds if and only if there is no allocation. |
| Ledger.PortfolioLedger.TakeCapital | src/portfolio/portfolio_ledger.cpp:28-50 | Takes or refuses exactly as specified, with each refusal's reason. |
| Ledger.PortfolioLedger.Commit | src/portfolio/portfolio_ledger.cpp:52-69 | Turns a paper allocation real, or says why not. |
| Ledger.PortfolioLedger.Release | src/portfolio/portfolio_ledger.cpp:71-87 | Returns an allocation with its P&L. |
| Ledger.PortfolioLedger.ApplyFill | src/portfolio/portfolio_ledger.cpp:89-115 | Books a fill on the symbol's aggregate position. |
| Workbooks.BooksAlwaysOk | src/workbook/workbook_manager.cpp:5-103 | Over any sequence of workbook operations borrowed is the sum of unreturned originals, main and available are the signed replay of the event list, and none is negative. |
| Workbooks.ApplyKeeps | src/workbook/workbook_manager.cpp:5-103 | Each single operation keeps that. |
| Workbooks.WorkbookManager.Create | src/workbook/workbook_manager.cpp:5-20 | Opens a workbook with non-negative capital. |
| Workbooks.WorkbookManager.Add | src/workbook/workbook_manager.cpp:22-37 | Adds capital or refuses, with the reason. |
| Workbooks.WorkbookManager.BorrowFrom | src/workbook/workbook_manager.cpp:39-64 | Lends capital together with a fresh ledger of that amount, or refuses. |
| Workbooks.WorkbookManager.Return | src/workbook/workbook_manager.cpp:66-90 | Takes capital back only from a settled ledger and only once. |
| Workbooks.WorkbookManager.Delete | src/workbook/workbook_manager.cpp:92-103 | Marks a workbook deleted once. |
| Exchange.SimulatedExchange.Submit | src/execution/simulated_exchange.cpp:13-62 | A sale fills if and only if the shares are held, a purchase if and only if the cash covers margin and fees one slippage above the close; price, fees and cash effect of the fill are exact, and only fills consume order ids. |
| Exchange.ExecutionTerms | src/execution/simulated_exchange.cpp:20-46 | With the default rates every fill is one paisa worse than the close, never below zero, and costs 2,360 paise plus 1 and 30 millionths of a purchase or 1 and 250 millionths of a sale, each rounded half up. |
| Holdings.FillMoves | src/container/trading_container.cpp:206-229 | A purchase leaves the average of all shares to the paisa below and no realised P&L; a sale realises its gain over the average less its fees and keeps the average until nothing is left. |
| Holdings.DriftIsBounded | src/container/trading_container.cpp:206-229 | For k buys at any prices that cost at least a paisa a share and any quantities, then one sale of everything, cash change minus true P&L lies between 0 and (lost notional + k - 1), the lost notional is at most (k - 1)(Q - 1), and a single buy drifts by nothing. |
| Holdings.DriftCanBePositive | src/execution/simulated_exchange.cpp:34-60 | Two purchases can gain two paise, so the bound is not vacuous. |
| Holdings.BuyKeepsCashNonNegative | src/execution/simulated_exchange.cpp:40-42 | A filled buy never makes cash negative. |
| Risk.IndexKept | src/risk/risk_engine.cpp:163-181 | The key and id maps of active containers stay inverse to each other. |
| Risk.RiskEngine.Check | src/risk/risk_engine.cpp:140-150 | Approves if and only if the kill switch is off, no square-off window applies, the IST minute is in [555, 930), the P&L is above the negative loss limit, and a purchase stays within the position limit and is covered by the cash with its fees; else reports the first rule in the chain's order that rejects. |
| Risk.ApprovedIff | src/risk/risk_engine.cpp:28-102 | With the default limits, in figures: kill switch off, no MIS window, minute in [555, 930), P&L above -100,000,000 paise, a purchase up to 1,000,000 shares, at a positive price, with a fifth of the notional and the fees in cash. |
| Orders.IstClock | include/algocraft/domain/session_clock.hpp:9-20 | The IST minute of the day and the IST day are those of the UTC clock 330 minutes later. |
| Risk.RiskEngine.RegisterContainer | src/risk/risk_engine.cpp:163-172 | Refuses exactly a key held by another container. |
| Risk.RiskEngine.UnregisterContainer | src/risk/risk_engine.cpp:174-181 | Removes a container from both maps. |
| Risk.RiskEngine.OnSystemEvent | src/risk/risk_engine.cpp:120-128 | Arms and disarms the flags. |
| Scheduler.StreamFollowsGrammar | include/algocraft/scheduler/session_scheduler.hpp:15-56 | Whatever bars and flushes arrive, the event stream is a prefix of (Start Warning? End)*. |
| Scheduler.EventsIff | include/algocraft/scheduler/session_scheduler.hpp:15-45 | After any bars, the next one starts a session exactly if it is the first or of another IST day, ends one exactly if there was one, and warns exactly if it is the first of its day at or after minute 915. |
| Scheduler.SessionScheduler.OnBar | include/algocraft/scheduler/session_scheduler.hpp:15-45 | Emits exactly the specified events. |
| Scheduler.SessionScheduler.FlushSession | include/algocraft/scheduler/session_scheduler.hpp:47-56 | Ends an open session once. |
| Container.RunIntentsSteps | src/container/trading_container.cpp:140-167 | Any strategy's intents move cash, position, ledger position and fill count consistently; a container that leaves mid-bar is flat, unregistered and has returned its final cash. |
| Container.OnBarSteps | src/container/trading_container.cpp:115-168 | The same for a whole bar, in any state. |
| Container.OnEventSteps | src/container/trading_container.cpp:187-204 | The same for system events; after the square-off warning an intraday container is flat, after the kill switch it is stopped; what it sells goes in one sale at the close of its last bar less the slippage. |
| Container.ExitSteps | src/container/trading_container.cpp:81-113 | Exit, forced exit and stop leave the container stopped and flat and return exactly its cash. |
| Container.ForcedSales | src/container/trading_container.cpp:81-99 | The strategy's exit, the final exit, the kill switch and, intraday, the square-off warning each append exactly one fill if shares are held: a sale of all of them at max(0, last close - slippage); the cash gains the margin at the entry price and the gain over it less the fees. No other event, and no warning to a delivery container, trades. |
| Container.IntentsInTurn | src/container/trading_container.cpp:140-167 | Intents are judged one after the other, a rejected or unfilled one like any other, until the strategy has left. |
| Container.IntentOutcome | src/container/trading_container.cpp:141-166 | One intent, relabelled and priced at the close unless it names a price, is rejected and recorded with its rule, refused by the venue without trace, or filled at the bar, after which the strategy may leave. |
| Container.FlattenTrades | src/container/trading_container.cpp:231-253 | Flattening empties the position, and the ledger's symbol position falls by the same shares. |
| Container.TradingContainer.StartUp | src/container/trading_container.cpp:32-57 | Registers and allocates, undoing the registration if the allocation fails. |
| Container.TradingContainer.UpgradeTo | src/container/trading_container.cpp:59-79 | Backtest to paper, or anything to real with committed capital. |
| Container.TradingContainer.TakeBar | src/container/trading_container.cpp:115-168 | The method's effect on itself, venue, risk engine and ledger is the specified one. |
| Container.TradingContainer.RunAll | src/container/trading_container.cpp:140-167 | The intent loop: it goes on after a rejection and ends early only when the strategy leaves after a fill. |
| Container.TradingContainer.TakeEvent | src/container/trading_container.cpp:187-204 | The event reaction; the forced sale of a running container is at the close of its last bar. |
| Container.TradingContainer.ForceExitAt | src/container/trading_container.cpp:92-99 | The forced exit. |
| Container.TradingContainer.ExitNow | src/container/trading_container.cpp:81-90 | The strategy's own exit, at the close of the last bar. |
| Container.TradingContainer.StopNow | src/container/trading_container.cpp:101-113 | Releases capital and registration once. |
| Container.TradingContainer.ApplyToHolding | src/container/trading_container.cpp:206-229 | Cash, position, average and realised P&L after a fill. |
| Manager.ReachedInv | src/container/container_manager.cpp:16-89 | At every point of every sequence of creates, kills, upgrades, bars and events: each symbol's ledger position is the sum over its containers (so the clamp to zero is never taken), fills add up, allocations are those of running containers, realised P&L is what stopped ones returned, the risk index lists exactly the running ones. |
| Manager.SweepKeeps | src/container/container_manager.cpp:62-89 | One bar, event or final exit over all containers keeps that; the warning flattens, the kill switch and the final exit stop every container. |
| Manager.CreateKeeps | src/container/container_manager.cpp:16-40 | A create keeps that, starts exactly when key and capital are free, and takes exactly its allocation. |
| Manager.KillKeeps | src/container/container_manager.cpp:42-52 | A kill keeps it. |
| Manager.UpgradeKeeps | src/container/container_manager.cpp:54-60 | An upgrade keeps it. |
| Manager.ContainerManager.CreateContainer | src/container/container_manager.cpp:16-40 | The object's create is the specified one. |
| Manager.ContainerManager.VisitAll | src/container/container_manager.cpp:62-89 | The three loops over containers equal the specified sweep. |
| Manager.ContainerManager.KillContainer | src/container/container_manager.cpp:42-52 | Closes the first container with the id. |
| Manager.ContainerManager.UpgradeContainer | src/container/container_manager.cpp:54-60 | Upgrades it, with each refusal's reason. |
| Router.RouteIff | src/routing/default_router.cpp:31-46 | For distinct winning pairs on a fresh desk, every winner gets a container, running the strategy registered under its name and sized for its share, if and only if the pool has a paisa for each; then the shares add up to the pool and nothing is left available. |
| Router.SharesAddUp | src/routing/default_router.cpp:31-37 | Quotient plus remainder to the first sums to the pool, whatever the remainder. |
| Router.SharesAreFair | src/routing/default_router.cpp:31-37 | Every winner but the first gets the n-th part of the pool to the paisa below, the first less than n paise more. |
| Router.SizedOrderPasses | include/algocraft/routing/position_sizer.hpp:9-20 | With 60,000 paise or more and a price between 100 paise and the buying power, the sized order is the largest within 95% of five times the allocation and passes the capital rule and the venue's check one paisa higher. |
| Router.TooDearFails | include/algocraft/routing/position_sizer.hpp:10-18 | A share dearer than the leveraged capital is still ordered and always refused. |
| Router.DefaultRouter.Start | src/routing/default_router.cpp:17-47 | The loop with its zeroed remainder is that split. |
| Evaluations.WinnersExact | src/routing/default_router.cpp:49-86 | A pair wins if and only if its stock has history on which its backtest realised a profit; no pair wins twice. |
| Evaluations.EvaluateAll | src/routing/default_router.cpp:49-86 | The nested loops with one backtest each compute those evaluations. |
| EvaluatedRun.ProfitablePairsTrade | src/engine/run_manager.cpp:47-183 | End to end from evaluation to settlement: with distinct stocks and a paisa for each profitable pair, a run trades exactly the pairs whose own backtest realised a profit, each with a real container that runs its strategy on its stock with its share, and returns exactly the final cash of their containers. |
| EvaluatedRun.RunMarket | src/engine/run_manager.cpp:47-183 | The imperative run, starting with the backtests, does that. |
| EvaluatedRun.SelectWinners | src/routing/default_router.cpp:21-29 | The selection loop keeps the winning evaluations in order. |
| RunProtocol.RunSettles | src/engine/run_manager.cpp:47-183 | For any tape, any strategies and any cut: the run borrows if and only if its capital is positive; the loan is returned if and only if the settlement is not negative, and then borrowed is 0 and available is starting capital plus the traded containers' final cash less allocations; other workbooks are untouched. |
| RunProtocol.RunWindsUp | src/engine/run_manager.cpp:127-176 | At the end of any run every container is stopped and flat, the ledger has no allocation and no shares, and the settlement is the loan plus what the containers made. |
| RunProtocol.FullPoolReturnsCash | src/engine/run_manager.cpp:47-183 | When the pool covers all winners each of them trades its own strategy on its own stock with its share, and the return is exactly their final cash. |
| RunProtocol.SquareOffSafety | src/engine/run_manager.cpp:131-150 | From any bar at or after 15:15 IST until the next IST day no container holds a share, even on an unsorted tape. |
| RunProtocol.AfterKeeps | src/engine/run_manager.cpp:131-150 | After every replayed bar the ledger, risk index and containers agree and the square-off discipline holds. |
| Audit.AfterAudited | src/engine/run_manager.cpp:131-150 | After every bar of a replay, whatever the strategies do: the fills come from the tape bar by bar, before a bar only sales at the last closes known by then and only from minute 915 on, with it only fills at its own close and from minute 915 on no purchase; every container's cash, position, average and P&L are what its own fills say, and every fill was lawful at its turn: a purchase in minutes [555, 930), before a realised loss of 100,000,000 paise, up to 1,000,000 shares and paid for, a sale of shares held. |
| Audit.RunAudited | src/engine/run_manager.cpp:47-183 | The same for the fills of a whole run from the router's split to the final exit: after the replayed bars only sales at the last closes follow, and the ledger's positions are what the fills book. |
| Audit.NeverOverLimit | src/risk/risk_engine.cpp:44-54 | At no point of an audited fill list does a container hold more than 1,000,000 shares or fewer than none. |
| Audit.SoleTraderBook | src/portfolio/portfolio_ledger.cpp:89-115 | The ledger's position of a symbol that one container alone trades has that container's shares, average and realised P&L. |
| RunWitness.LoanNeverReturned | src/engine/run_manager.cpp:34-43 | A concrete run with a negative settlement: the return is refused and the capital stays borrowed, while the run reports it as returned. |
| RunManagement.RunManager.ExecuteRun | src/engine/run_manager.cpp:47-183 | The run with its objects, ring and loops does to the books and reports exactly what the specification says. |
| RunManagement.RunManager.ReplayTape | src/engine/run_manager.cpp:127-150 | The ring pump processes every bar once and in order until the cut. |
| RunManagement.RunManager.PumpBar | src/engine/run_manager.cpp:136-149 | The bar that leaves the ring is the next one of the tape, whatever the ring holds. |
| RunManagement.RunManager.DispatchSystem | src/engine/run_manager.cpp:23-32 | A system event reaches the risk engine and then every container. |
| RunManagement.RunManager.Finish | src/engine/run_manager.cpp:152-163 | Kill switch or session end, then the forced exits. |
| RunManagement.RunManager.Settle | src/engine/run_manager.cpp:34-43 | The settlement goes back to the workbook. |
| Ring.TopUp | src/engine/run_manager.cpp:136-138 | After topping up, the ring holds exactly the tape from the next bar to process to the next one to push. |
| Ring.SpscRing.TryPush | include/algocraft/engine/spsc_ring.hpp:27-28 | Refuses exactly when full, else appends. |
| Ring.SpscRing.TryPop | include/algocraft/engine/spsc_ring.hpp:30-31 | Takes the oldest element, if any. |
| Phase0.ShutdownLosesNothing | src/engine/phase0_runtime.cpp:42-156 | Over every interleaving of the five loops, every refused push and any start/stop cycles: when `stop` has returned, the persist and log rings are empty and the counters equal the accepted pushes. |
| Phase0.FillsFollowBars | src/engine/phase0_runtime.cpp:56-102 | At every moment there are increasing positions among the bars thread 0 processed such that each fill, and each command, it received carries the symbol and number of the bar at its position, with its own kind. |
| Phase0.QuietThenStop | src/engine/phase0_runtime.cpp:56-156 | After quiescence and stop every bar and every refusal is accounted for: fills, commands, persisted and logged events equal 1, 1, 4 and 1 per bar less the exact losses; with no refusal the i-th fill and the i-th command carry symbol and number of the i-th bar. |
| Phase0.EveryFairScheduleStops | src/engine/phase0_runtime.cpp:42-156 | Shutdown is live: from every reachable state in which stop was called, under every infinite schedule in which each thread and the caller move again and again, with any pushes refused and bars still fed, stop returns. |
| Phase0Progress.EveryFairScheduleQuiets | src/engine/phase0_runtime.cpp:56-141 | Progress: from every reachable running state, under every fair schedule without new bars and without stop, all pipelines become quiet, whatever pushes are refused. |
| Phase0Progress.FewBarsLoseNothing | src/engine/phase0_runtime.cpp:56-141 | Over every interleaving and any start/stop cycles, with at most 512 bars fed no ring is ever full when a thread pushes, so no push of a willing thread is refused. |
| Phase0Progress.FewBarsAllHandled | src/engine/phase0_runtime.cpp:56-141 | With at most 512 bars and willing threads every fair schedule ends with each bar routed, ordered, filled and commanded exactly once: the i-th fill and the i-th command carry symbol and number of the i-th bar. |
| Phase0Kept.BarsAreFed | src/engine/phase0_runtime.cpp:61 | The bars thread 0 took, followed by those waiting, are exactly the ones the market ring accepted, in order; it accepts while it holds fewer than 1,024. |
| Phase0Kept.KeptFollows | src/engine/phase0_runtime.cpp:10-13 | At every moment what the keeper took from each persist ring and what waits in it are, in order and with the persist kind, some of the bars and fills thread 0 took, or of the bars threads 1 and 3 relayed, with their symbols and numbers. |
| Phase0Kept.EverythingIsKept | src/engine/phase0_runtime.cpp:56-156 | With no push refused, after quiescence and stop: bars handled are bars accepted, each became one fill and one command, and the keeper took a copy of every bar and fill of thread 0 and of every bar of threads 1 and 3, in order. |
| Phase0Progress.OwingMoves | src/engine/phase0_runtime.cpp:56-102 | A move of a thread with something to do lowers the work left, or brings it nearer to its next item. |
| Phase0.AwaitedMoves | src/engine/phase0_runtime.cpp:42-156 | A move of the thread being joined brings the shutdown strictly nearer, whatever is accepted. |
| Phase0.OthersLeave | src/engine/phase0_runtime.cpp:42-156 | No other thread's move changes who is awaited or how much that thread has left. |
| Phase0.StopCanFinish | src/engine/phase0_runtime.cpp:42-54 | Shutdown cannot deadlock: from every reachable state in which stop was called some schedule lets it return, even if every push is refused. |
| Phase0.PhasedStep | src/engine/phase0_runtime.cpp:29-54 | Every step keeps the two-phase life cycle: workers off before the persist flag, persist rings drained in order after it. |
| Phase0.AccountedStep | src/engine/phase0_runtime.cpp:104-141 | Every step keeps accepted = counted + in hand + in the rings. |
| Phase0.CoherentStep | src/engine/phase0_runtime.cpp:56-156 | Every step keeps the whole invariant, including that each relayed event is offered to a persist ring exactly once. |
| Backtesting.BacktestTotals | src/backtest/backtest_runner.cpp:156-260 | For any bars and strategy: the reported drawdown is the brute-force maximum fall over all pairs of samples taken before the final sale, daily snapshots add up to the totals, and the run ends flat with the cash as ending equity. |
| Backtesting.ReportIsTally | src/backtest/backtest_runner.cpp:72-107 | From the list of fills alone: the report's fills are its length, the fees their sum, the trips the sales, the wins the sales whose proceeds exceed the average cost of their trip, its entry fees and their own fee, the realised P&L the sum of these gains, the holding time the sum from first purchase to sale. |
| BacktestAudit.SnapshotsTally | src/backtest/backtest_runner.cpp:156-171 | The daily snapshots cut the list of fills into consecutive stretches with nothing left over; each counts exactly the fees, fills, trips, wins and gains of its stretch, in an intraday run fills of its own UTC day only, and with non-negative prices its equity is starting cash, gains and rounding drift of the fills so far. |
| BacktestAudit.BacktestDealt | src/backtest/backtest_runner.cpp:198-238 | The fills come from the bars one after the other: with a bar only fills at its close and the venue's terms, before it at most one sale, at the close of the bar that ended an intraday day, and at the end at most one sale at the last close. |
| BacktestAudit.SampleIsLiquidation | src/backtest/backtest_runner.cpp:109-117 | Every equity sample is the cash that selling out at the close would leave without slippage and fees, or one paisa more for the rounding of the loan. |
| Backtesting.ReportedDrawdownIff | src/backtest/backtest_runner.cpp:224-238 | The reported drawdown is the maximum over the equity curve the run ends with, whose last sample the final sale replaces, if and only if the final sale leaves that sample as it was or neither value falls further below the peak than before. |
| Backtesting.FlatRunsReportDrawdown | src/backtest/backtest_runner.cpp:224-238 | A run that is flat after its last bar reports the drawdown of that curve. |
| Backtesting.LossAboveDrawdown | src/backtest/backtest_runner.cpp:224-238 | Ten shares bought on a single bar: the run loses 4,742 paise and reports a drawdown of 2,370, fees of 4,722, two fills, one trip and no win. |
| Backtesting.DrawdownIsMaximum | src/backtest/backtest_runner.cpp:224-228 | After every bar the running peak and drawdown are those of all samples, the starting cash included. |
| Backtesting.DaysTelescope | src/backtest/backtest_runner.cpp:156-171 | After every bar the snapshots taken sum to the marks of the last one. |
| Backtesting.OneSnapshotPerDay | src/backtest/backtest_runner.cpp:208-211 | An intraday run has one snapshot per run of bars of one UTC day, at its last bar; any other run has one. |
| Backtesting.EndingEquity | src/backtest/backtest_runner.cpp:72-117 | Ending equity is starting capital plus realised P&L plus the rounding drift, which is zero when every trip is one buy sold whole. |
| Backtesting.PartialSaleDrifts | src/backtest/backtest_runner.cpp:92-106 | Selling part of a position empties the book; the margin of the other shares never comes back. |
| Backtesting.BacktestRunner.Run | src/backtest/backtest_runner.cpp:121-260 | The imperative run returns the specified result; its fills, fees, trips, wins, realised P&L and holding time are those of its list of fills. |
| Backtesting.BacktestRunner.Pump | src/backtest/backtest_runner.cpp:198-230 | Bars go through the bounded ring once and in order. |
| Backtesting.BacktestRunner.TakeBar | src/backtest/backtest_runner.cpp:208-230 | One bar: square-off of the previous day, intents, exit, sample. |
| Backtesting.BacktestRunner.SubmitAndApply | src/backtest/backtest_runner.cpp:173-188 | One order through the venue into the book, which stays what the list of fills says. |
| UpClip.LifeIsSummarised | src/strategies/consecutive_up_clip.cpp:33-158 | For any bars and fills, with no negative close while shares are held, the flags and counters are exactly statements about the events since the last sale or session start: lowest close since the last close of zero, too deep a dip, a dip since the last clip, streak lengths. |
| UpClip.LowestCloseIff | src/strategies/consecutive_up_clip.cpp:99-112 | The remembered close is the lowest since the first fill if and only if the last bar of the position closed at zero or none did; the dip flag says whether a close ever fell below the limit if and only if no buy followed a close of zero after which none did. |
| UpClip.NoZeroNothingForgiven | src/strategies/consecutive_up_clip.cpp:99-112 | Without a close of zero, too deep a dip is any close below the limit. |
| UpClip.SignalsIff | src/strategies/consecutive_up_clip.cpp:70-143 | An add-on buy, a sale and an entry are emitted if and only if the history says so: for an add, before 13:00, between stop and target, no unforgiven close since the first fill below the dip limit, some close below p0 since the last clip, and the last bars rising without interruption. |
| UpClip.WindowIsCycle | src/strategies/consecutive_up_clip.cpp:33-46 | Those events are the stretch since the last sale or the bar that opened the session. |
| UpClip.OneOrderPerBar | src/strategies/consecutive_up_clip.cpp:55-143 | Each signal's order: nothing, one sale of the whole position, or one purchase of as many shares as the clip pays for at the close, and at least one; other symbols yield nothing. |
| UpClip.BasisPoints | src/strategies/consecutive_up_clip.cpp:24-30 | The limits lie at the given basis points of the entry price above and below it, to the paisa below. |
| UpClip.TickIsBar | src/strategies/consecutive_up_clip.cpp:76-88 | What the history records of a bar is its UTC day, its IST minute, its close and whether shares were held. |
| UpClip.CarriedPositionIsIgnored | src/strategies/consecutive_up_clip.cpp:97-140 | A position carried into a new session is neither sold nor added to by the strategy. |
| UpClip.ZeroCloseIsForgotten | src/strategies/consecutive_up_clip.cpp:99-102 | After a close of zero the lowest close is whatever comes next. |
| UpClip.MinuteIsIstMinute | src/strategies/consecutive_up_clip.cpp:13-21 | The strategy's minute of the day, computed from whole seconds, is the engine's. |
| UpClip.ConsecutiveUpClip.OnBar | src/strategies/consecutive_up_clip.cpp:70-143 | The method's new state and orders are the specified ones. |
| UpClip.ConsecutiveUpClip.TakeFill | src/strategies/consecutive_up_clip.cpp:145-158 | The fill reaction. |
| Packing.UnpackPackIff | src/persistence/packed_bars.cpp:49-100 | Unpacking a packed list gives it back if and only if it has fewer than 2^32 bars, else a size mismatch; negative fields included. |
| Packing.PackUnpack | src/persistence/packed_bars.cpp:66-100 | Any blob that is accepted is the packing of what it unpacks to. |
| Packing.BlobLayout | src/persistence/packed_bars.cpp:49-64 | Where everything stands: ACB1, version 1, the number of bars, and from byte 12 on 48 bytes a bar, its time, open, high, low, close and volume. |
| Packing.LittleEndianAt | src/persistence/packed_bars.cpp:17-29 | Byte k of an integer is its k-th digit to base 256. |
| Packing.PackSessionBars | src/persistence/packed_bars.cpp:49-64 | The append loops produce that blob. |
| Packing.UnpackSessionBars | src/persistence/packed_bars.cpp:66-100 | The read loops produce those bars with the caller's symbol and resolution, or the source's errors. |
| Packing.AppendLittleEndian | src/persistence/packed_bars.cpp:17-29 | The shift loop appends the low bytes, least significant first. |
| Packing.ReadLittleEndian | src/persistence/packed_bars.cpp:31-45 | The reverse loop reads them. |
| SessionKeys.IsoRoundTripIff | include/algocraft/domain/session_date.hpp:25-55 | Parsing a printed date gives it back if and only if year, month and day are plausible (from 1970, 1-12, 1-31). |
| SessionKeys.IsoIs | include/algocraft/domain/session_date.hpp:51-55 | A printed date is four, two and two decimal digits of year, month and day between hyphens. |
| SessionKeys.IsoOrder | include/algocraft/domain/session_date.hpp:51-57 | Byte order of printed dates is date order. |
| SessionKeys.PrefixTells | include/algocraft/domain/session_date.hpp:60-70 | Without bar signs in tickers a key carries another's prefix only for the same ticker and resolution. |
| BarStore.ListExactIff | src/persistence/rocks_bar_store.cpp:95-128 | For stored keys of any tickers, the scan returns exactly the stored dates of the ticker and resolution in the range, ascending, without duplicates, if and only if every key that carries its prefix within the bounds is one of its own with a date that can be parsed. |
| BarStore.ListIsExact | src/persistence/rocks_bar_store.cpp:95-128 | With tickers free of bar signs that is always so. |
| BarStore.BarSignLeaks | src/persistence/rocks_bar_store.cpp:95-128 | A bar sign in a ticker breaks it: another ticker's session is reported. |
| BarStore.LookupPut | src/persistence/rocks_bar_store.cpp:57-88 | Reading after writing gives the written value for its key and leaves other keys alone. |
| BarStore.SessionRoundTrip | src/persistence/rocks_bar_store.cpp:57-88 | A stored session reads back as its bars. |
| BarStore.RocksBarStore.PutSession | src/persistence/rocks_bar_store.cpp:57-71 | Writes one entry, or refuses a closed store, an empty ticker or a bad date. |
| BarStore.RocksBarStore.GetSession | src/persistence/rocks_bar_store.cpp:73-88 | Reads and unpacks one entry. |
| BarStore.RocksBarStore.Open | src/persistence/rocks_bar_store.cpp:27-45 | An opened store accepts reads and writes. |
| BarStore.RocksBarStore.Close | src/persistence/rocks_bar_store.cpp:47-55 | A closed store refuses them and keeps its entries. |
| BarStore.RocksBarStore.ListSessions | src/persistence/rocks_bar_store.cpp:95-128 | The iterator loop computes the scan. |
| StoreRefinement.PutAllRefines | src/persistence/rocks_bar_store.cpp:57-71 | Any sequence of writes for any tickers and resolutions keeps the ordered store a refinement of each one's map from dates to bars. |
| StoreRefinement.DaysRefine | src/market_data/data_fetch_service.cpp:319-326 | Storing the days of a fetched chunk as blobs refines storing them in the cache's map. |
| StoreRefinement.GetRefines | src/persistence/rocks_bar_store.cpp:73-88 | A stored date is read back as its bars, any other as absent. |
| StoreRefinement.ListRefinesIff | src/persistence/rocks_bar_store.cpp:95-128 | The scan lists exactly the map's dates within the bounds if and only if no alias lies there. |
| StoreRefinement.KeyTells | include/algocraft/domain/session_date.hpp:60-70 | A key determines its ticker, resolution and date, bar signs or not. |
| StoreRefinement.LoadStored | src/market_data/data_fetch_service.cpp:152-177 | Listing, reading the blobs and filtering gives what the map would have served. |
| StoreRuns.BytesRefineEveryWrite | src/market_data/data_fetch_service.cpp:294-336 | After every single write of every run of requests, with any writes of other tickers and resolutions in between, the bytes of the store refine the cache's map at that point. |
| StoreRuns.BytesRefineRun | src/market_data/data_fetch_service.cpp:100-338 | The bytes reached by the writes of any run refine the store the run ends with. |
| StoreRuns.RunWithin | src/market_data/data_fetch_service.cpp:100-338 | Every put of a run is of a date between the epoch and its last today, with bars of the vendor's history. |
| StoreRuns.LoadVendorBars | src/market_data/data_fetch_service.cpp:144-177 | Down to the bytes: on a store that holds the writes of any run, other tickers' included, what is read for its last request is exactly the vendor's bars of the range if and only if no such bar lies on a skipped date, and always when the earlier requests fit. |
| Base64Url.DecodeEncode | src/auth/auth_service.cpp:23-106 | Decoding undoes encoding for every byte string. |
| Base64Url.EncodeIs | src/auth/auth_service.cpp:23-49 | The text is unpadded and within the URL-safe alphabet, free of the token separator. |
| Base64Url.EncodeAt | src/auth/auth_service.cpp:23-49 | The text has ceil(4n/3) characters, each the URL-safe letter of its six bits of the input. |
| Base64Url.EncodeInjective | src/auth/auth_service.cpp:23-49 | Different byte strings have different texts. |
| Base64Url.EncodeBytes | src/auth/auth_service.cpp:23-49 | The grouping and stripping loops compute the encoding; the substitution of characters is a function. |
| Base64Url.DecodeText | src/auth/auth_service.cpp:55-106 | The padding and grouping loops compute the decoding, including what invalid characters give. |
| Tokens.TokenRoundTripIff | src/auth/auth_service.cpp:193-208 | For any keyed hash and any role text, a made token validates to exactly its id, role and expiry up to the expiry and to nothing afterwards, at every time, if and only if the role contains no quotation mark. |
| Tokens.TokenParts | src/auth/auth_service.cpp:193-208 | A token is three texts joined by dots that decode to the header, to the JSON of id, role and expiry, and to the keyed hash of the first two. |
| Tokens.AcceptedIsSigned | src/auth/auth_service.cpp:297-374 | Whatever validates carries the signature of its own first two parts and has not expired. |
| Tokens.ReadIntPrinted | src/auth/auth_service.cpp:327-346 | A printed 64-bit number followed by a non-digit is read back. |

## Left out

- Sockets, HTTP routes, command line, scripts and ad hoc JSON of the API: no invariants of their own.
- SQLite and RocksDB internals, migrations and the activity repository: the coverage row is an optional value, the bar store a map (cache) or a sorted sequence of entries (range scan), and nothing is persisted at the end of a run.
- Vendor and CSV providers: the vendor is a fixed history that never fails; a bar becomes visible at its timestamp.
- Password hashing, random salts and the hash functions themselves: the keyed hash is a parameter.
- Sharpe ratio and indicator values, and the divisions that give win rate and average hold: floating point (the counts and the holding time they divide are modelled). Strategies other than `ConsecutiveUpClip` are arbitrary functions of what they saw.
- Machine overflow: integers are unbounded except in the packed blob and the token; timestamps before 1970 are not represented outside the packed blob, and dates in keys have at most four-digit years.
- The cache model has one ticker and one resolution; unknown tickers and closed databases raise errors that are not modelled there, and rows written by other programs are not considered.
- The null checks on a container's capital manager and on repositories: in a run they are always present. Warm-up bars are never delivered in a run and are not modelled.
- Rejection reasons, indicator snapshots in signal logs and tickers copied into result rows: text only.
- Loading and sorting the tape, and the vendor reads of the router's evaluation: both are parameters; all strategies are taken to use one-minute bars as the source's do.
- Memory ordering of the lock-free queue: each push and pop is one atomic step.
- CacheRequests.RunHoldsAll: asks that each request fits, because the code does not fill between the range and a distant request; `EnsureIff` shows the condition is exact.
- CacheServe.Transparent: asks for a truthful range without missing keys and, for a request without lower bound, for empty coverage, because the code then asks from the first covered date; `TransparentIff` shows what is exact. Today's bars may be up to 30 minutes old, as the code intends.
- StoreRuns.LoadVendorBars: asks for tickers without bar signs, for bars that fit 64 bits and for fewer than 2^32 of them; `ListRefinesIff` says exactly what aliases break.
- The cache theorems take the vendor's history to be in order of time, on session days only, and without bars after 23:59:00 IST (`Chronological`, `InHours`).
- BarStore.RocksBarStore.Open: does not model a failing open or entries already on disk.
- UpClip.LifeIsSummarised: asks that no close is negative while shares are held; at a close of zero the code forgets the lowest close, and `LowestCloseIff` says exactly when this shows. Thresholds and streak lengths in the configuration are taken to be non-negative.
- Backtesting.EndingEquity: asks for non-negative closes; at a negative price the venue and the book use different entry prices.
- BarStore.ListIsExact: asks for tickers without bar signs; `ListExactIff` gives the exact condition and `BarSignLeaks` a failing store.
- Hex codec of salts, symbol table, registries, memory pool and asynchronous logger: easy members.
