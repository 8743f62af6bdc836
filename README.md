# Portfolio engine of terminal-portfolio-manager, in Dafny

This project models the engine of a terminal portfolio manager. The engine
keeps a ledger of tax lots and turns it into the views the rest of the
application consumes:

- **The lot ledger.** Add, remove, update and read lots. `symbol.upper()` is
  stored, and the table's CHECK constraints refuse a non-positive quantity or
  price.
- **The valuation pass.**
  - Each lot is joined with the quote of its symbol.
  - The lots are grouped into one aggregated position per symbol, and the
    positions are sorted by value.
  - The totals, the day change and the sector allocation are rolled up.
- **The daily snapshot and its history.**
  - The snapshot is an upsert keyed by date.
  - The history summarises a trailing window: first and last value, change,
    high and low.
- **The performance breakdown.** A signed contribution per holding, the five
  largest gainers and losers, and the return of each sector.
- **The sliding-window rate limiter** guarding the quote provider.
- **Three small pure helpers.** Ticker validation, parsing of the newsletter
  recipient list, and the "time ago" label of a news article.

## Modelling conventions

- Money, quantities and clock readings are `real`. Dates are integer day
  numbers. A datetime is an integer count of microseconds on the local wall
  clock.
- Python's `None` is `Option.None`. A raised exception is `Result.Err` with a
  `Failure` value.
- Python truthiness is written out: `Truthy` treats `None` and `0.0` as false,
  `TruthyText` treats `None` and `""` as false. The engine tests prices,
  values and sectors this way.
- The quote provider is represented by its answers, a `map<string, Quote>`. A
  symbol whose fetch raised has no entry.
- The current date, the clock readings and the `include_prices` switch are
  parameters.
- The lot table is a class field `lots: seq<LotRow>` in row order, with an
  AUTOINCREMENT counter. The snapshot table is a `map<int, SnapshotRow>` keyed
  by its UNIQUE date, with its own counter.
- Loops in the source are methods with loop invariants. Each one is proved
  equal to a specification function, and the properties are proved about
  that function:
  - the enrichment loop, the grouping loop and the building loop;
  - the sector-allocation loop and the sector loop of the breakdown;
  - the fetch loop, the history window query and the rate limiter's pruning
    loop.

Where the documented behaviour of the system and the code disagree, the model follows
the code:

- **Contribution.** The ratio is `gain / |total| * 100`, not
  `|gain| / |total|`. A losing holding in a losing portfolio therefore
  contributes a negative amount. `Attribution.LosingHoldingInLosingPortfolio`
  shows -20 for a loss of 20 in a portfolio that lost 100.
- **Future purchase dates.** `add_position` accepts them.
- **Stored symbols.** `add_position` stores `symbol.upper()` without
  stripping. The returned record and every record read back are stripped by
  the `Position` validator.
- **Empty updates.** An update naming no field fails with its own error
  (`NoUpdatesSpecified`), not with a validation error.
- **Missing sectors.** They are grouped under `"Unknown"`. A sector's return
  is 0 unless its summed cost is positive.

## Model

| member | source | states |
|---|---|---|
| PortfolioModels.NewPosition | app/models/portfolio.py:12-36 | a lot is refused exactly when shares <= 0 or purchase price <= 0; otherwise it keeps id, date and notes, has the normalised symbol and no computed field |
| PortfolioModels.NormalizeSymbol | app/models/portfolio.py:33-36 | the validated symbol is trimmed, has no lower-case letter and is no longer than the input |
| PortfolioModels.NormalizeSymbolIdempotent | app/models/portfolio.py:33-36 | normalising a symbol twice gives the same symbol as normalising it once |
| PortfolioModels.NormalizeUpper | app/models/portfolio.py:33-36 | upper-casing a symbol before the validator runs changes nothing |
| PortfolioModels.HoldingPeriodDays | app/models/portfolio.py:38-41 | purchase date + holding period = today, and the period is negative exactly for a purchase date in the future |
| PortfolioModels.IsLongTerm | app/models/portfolio.py:43-46 | long-term exactly when the purchase date is more than 365 days before today (365 days is short-term) |
| PortfolioModels.EmptyPortfolio | app/models/portfolio.py:66-85 | the default portfolio has empty lists and map, all totals 0 and both counts 0 |
| PortfolioModels.EmptyHistory | app/models/portfolio.py:168-185 | the default history has no snapshots and every summary field absent |
| PortfolioModels.EmptyPerformance | app/models/portfolio.py:201-217 | the default breakdown has empty lists and map and all totals 0 |
| Ledger.PortfolioService.constructor | app/services/portfolio_service.py:44-75 | a new database has both tables empty and both id counters at 1 |
| Ledger.PortfolioService.AddPosition | app/services/portfolio_service.py:85-118 | non-positive shares or price break the CHECK constraint and change nothing; otherwise one row with `symbol.upper()` is appended under the next id, which no earlier row holds, the counter advances, and the result is the validated record of that row |
| Ledger.PortfolioService.InsertRow | app/services/portfolio_service.py:94-109 | the insert appends the row under the counter's id, advances the counter and keeps the table invariants |
| Ledger.PortfolioService.RemovePosition | app/services/portfolio_service.py:120-128 | returns true exactly when a row had that id; every other row stays, in order; the counters do not move |
| Ledger.PortfolioService.GetPosition | app/services/portfolio_service.py:161-172 | not-found exactly when no row has the id; otherwise the record read from a row with that id |
| Ledger.PortfolioService.UpdatePosition | app/services/portfolio_service.py:130-159 | no field given: `NoUpdatesSpecified` and no change; unknown id: not-found and no change; a non-positive quantity on an existing row: constraint violation and no change; otherwise only that row's given columns change and the updated record is returned |
| Ledger.PortfolioService.SetColumns | app/services/portfolio_service.py:152-157 | the UPDATE replaces the row at the index by its updated columns and keeps the table invariants |
| Ledger.PortfolioService.GetAllPositions | app/services/portfolio_service.py:174-181 | the records of all rows, ordered by stored symbol then purchase date |
| Ledger.PortfolioService.GetPositionsBySymbol | app/services/portfolio_service.py:183-191 | the records of the rows whose stored symbol is `symbol.upper()`, in the same order |
| Ledger.PortfolioService.GetPortfolio | app/services/portfolio_service.py:195-286 | the empty portfolio without lots, otherwise the valuation of all lots against the quotes fetched for their symbols |
| Ledger.PortfolioService.SaveSnapshot | app/services/portfolio_service.py:375-415 | the snapshot carries the portfolio's value, cost, gain, gain percent and count under today's date, and the table is the upsert of it; the lot table does not change |
| Ledger.PortfolioService.GetHistory | app/services/portfolio_service.py:417-483 | the history's snapshots are exactly the stored ones dated from today - days on, one per date, in ascending order, and the history is their summary |
| Ledger.ReadLot | app/services/portfolio_service.py:356-371 | a row reads as the record with its columns, the symbol normalised and no computed field |
| Ledger.FindLot | app/services/portfolio_service.py:164-167 | the index of a row with the id, or none when no row has it |
| Ledger.Without | app/services/portfolio_service.py:123-126 | the rows left by the DELETE are exactly those with another id |
| Ledger.Matching | app/services/portfolio_service.py:186-188 | the rows selected are exactly those whose stored symbol is the given one |
| Ledger.Updated | app/services/portfolio_service.py:137-156 | the UPDATE sets shares and notes when given and keeps every other column |
| Ledger.LedgerValuation | app/services/portfolio_service.py:195-286 | the valued ledger has one position per row and one symbol per aggregated position; its total cost is the sum of shares x purchase price over all rows; its total value is the summed value of its aggregated positions; their weights sum to 100 when the value is positive |
| Ledger.ReadSnapshot | app/services/portfolio_service.py:440-456 | a stored snapshot reads with its id, date and value |
| Ledger.Upsert | app/services/portfolio_service.py:390-413 | after the upsert there is exactly one row for the date, holding the new totals; other dates are unchanged; a new date takes the next id, an existing date keeps its id |
| Ledger.UpsertTwice | app/services/portfolio_service.py:376-378 | saving the same totals twice on one day leaves the tables as saving once |
| Ledger.Window | app/services/portfolio_service.py:427-435 | the window holds the stored snapshots dated from the cutoff on, each date once, dates strictly ascending |
| Ledger.OrderStep | app/services/portfolio_service.py:432 | moving the earliest pending date to the end of the window keeps it ascending |
| Ledger.CoverStep | app/services/portfolio_service.py:430-431 | every stored date from the cutoff on stays pending or in the window |
| Ledger.AppendRow | app/services/portfolio_service.py:48-51 | appending under the counter's id keeps ids increasing and unique and the CHECK constraints met |
| Ledger.UpdateRow | app/services/portfolio_service.py:50-51 | an update with a positive quantity keeps the table invariants |
| Ledger.RemoveRows | app/services/portfolio_service.py:123-126 | a delete keeps the table invariants |
| Ledger.UniqueIds | app/services/portfolio_service.py:48 | with increasing ids the row found by id is the only one with it |
| Ledger.WithoutKeepsOrder | app/services/portfolio_service.py:123-126 | a delete keeps the remaining rows in id order |
| LedgerOrder.SortLots | app/services/portfolio_service.py:178 | `ORDER BY symbol, purchase_date`: a permutation of the rows, ordered by symbol and then date |
| LedgerOrder.InsertLot | app/services/portfolio_service.py:178 | inserting a row adds exactly that row to the multiset of rows |
| LedgerOrder.InsertLotOrdered | app/services/portfolio_service.py:178 | inserting a row into ordered rows keeps them ordered |
| LedgerOrder.SameSymbolByDate | app/services/portfolio_service.py:187 | rows of one symbol come out by purchase date |
| LedgerOrder.StrLessTransitive | app/services/portfolio_service.py:178 | the symbol order is transitive |
| LedgerOrder.StrLessTotal | app/services/portfolio_service.py:178 | any two different symbols are ordered one way or the other |
| Valuation.FetchPrices | app/services/portfolio_service.py:207-216 | the fetched quotes are those of the lots' symbols that the provider answered, none when prices are skipped |
| Valuation.WithCost | app/services/portfolio_service.py:221 | every lot gets cost basis = shares x purchase price |
| Valuation.Valued | app/services/portfolio_service.py:227-234 | value = shares x price, gain = value - cost, gain percent = gain / cost x 100 when cost > 0 and 0 otherwise; nothing else changes |
| Valuation.DayMoved | app/services/portfolio_service.py:236-243 | day change = (price - previous close) x shares, its percent relative to the previous close; nothing else changes |
| Valuation.ValueLot | app/services/portfolio_service.py:227-234 | the assignments of the valuation step compute the valued lot |
| Valuation.MoveLot | app/services/portfolio_service.py:236-243 | the assignments of the day-change step compute the moved lot |
| Valuation.EnrichLot | app/services/portfolio_service.py:220-245 | the loop body computes the lot's enrichment |
| Valuation.EnrichPositions | app/services/portfolio_service.py:218-245 | the enrichment loop enriches every lot, in ledger order |
| Valuation.EnrichAll | app/services/portfolio_service.py:218-245 | one enriched lot per lot, in order |
| Valuation.EnrichedLot | app/services/portfolio_service.py:220-245 | enrichment keeps the stored fields, always sets the cost basis, sets value, gain and gain percent exactly when the price is truthy, and sets the day change exactly when the previous close is truthy too |
| Valuation.EnrichedValue | app/services/portfolio_service.py:227-234 | a priced lot is worth shares x price, its gain is value - shares x purchase price, and its gain percent is relative to that cost |
| Valuation.EnrichedDayChange | app/services/portfolio_service.py:236-243 | a lot with truthy price and previous close moves by (price - close) x shares, in percent of the close |
| Valuation.EnrichedValued | app/services/portfolio_service.py:218-245 | every enriched lot has a value exactly when its symbol is priced, and the value is shares x price |
| Valuation.EnrichedLotValued | app/services/portfolio_service.py:227-228 | one enriched lot has a value exactly when its symbol is priced, and the value is shares x price |
| Valuation.TotalCostIgnoresQuotes | app/services/portfolio_service.py:251 | the total cost basis is the sum of shares x purchase price whatever the quotes |
| Valuation.DistinctSymbols | app/services/portfolio_service.py:294-299 | the grouping dict's keys, without duplicates, are exactly the lots' symbols |
| Valuation.LotsOf | app/services/portfolio_service.py:296-299 | a group holds lots of its symbol only, taken from the ledger; a symbol without lots has none |
| Valuation.GroupBySymbol | app/services/portfolio_service.py:294-299 | the grouping loop builds the key order and the groups |
| Valuation.GroupsAreLots | app/services/portfolio_service.py:294-299 | the dict has one key per symbol, holding exactly that symbol's lots in ledger order |
| PortfolioModels.Percent | app/services/portfolio_service.py:323-333 | part / whole x 100 when the whole is positive, 0 otherwise; the same rule gives the gain percent, the weight, the change percent of the history and the return of a sector |
| Valuation.Quotient | app/services/portfolio_service.py:307 | x / y when y is positive, 0 otherwise |
| Valuation.AggregateMeaning | app/services/portfolio_service.py:304-350 | an aggregated position holds the summed shares and cost and the average cost (0 without shares); a value exactly when the price is truthy, equal to shares x price; a gain exactly when the value is truthy, with its percent only when cost > 0; a weight exactly when the value is truthy and the portfolio value positive, equal to value / portfolio value x 100; and the quote's price, sector and industry |
| Valuation.AggregateGroup | app/services/portfolio_service.py:304-350 | the loop body computes the group's aggregated position |
| Valuation.BuildAggregates | app/services/portfolio_service.py:301-350 | the building loop gives one aggregated position per key, in key order |
| Valuation.AggregatePositions | app/services/portfolio_service.py:288-354 | the aggregation is the grouping, building and stable sort by value |
| Valuation.AggregationNoDup | app/services/portfolio_service.py:294-304 | no symbol has two aggregated positions |
| Valuation.AggregationCount | app/services/portfolio_service.py:294-304 | there are as many aggregated positions as distinct symbols |
| Valuation.AggregationMembers | app/services/portfolio_service.py:294-304 | the aggregated symbols are exactly the ledger's symbols |
| Valuation.AggregationEntries | app/services/portfolio_service.py:302-350 | each aggregated position is the aggregate of exactly its symbol's lots, weighted against the sum of all lot values |
| Valuation.AggregationOrder | app/services/portfolio_service.py:352-353 | the aggregation is non-increasing in value (absent value as 0), and equal values keep the order of first appearance |
| Valuation.GroupSumPartition | app/services/portfolio_service.py:294-306 | summing over the groups gives the sum over all lots |
| Valuation.AggregationValueTotal | app/services/portfolio_service.py:302-320 | the values of the aggregated positions add up to the sum of the lot values |
| Valuation.WeightsSumTo100 | app/services/portfolio_service.py:329-333 | with a positive total lot value, the weights of the aggregated positions add up to 100 |
| Valuation.SectorAllocationMeaning | app/services/portfolio_service.py:256-264 | the allocation has a key exactly for the sectors of positions with a truthy sector and value, only when the total is positive, each holding the summed value / total x 100 of its positions |
| Valuation.AllocateSectors | app/services/portfolio_service.py:256-264 | the allocation loop computes that allocation |
| Valuation.DayChangePct | app/services/portfolio_service.py:278-282 | day change / (value - day change) x 100, or 0 when that base is not positive |
| Valuation.RollUpTotals | app/services/portfolio_service.py:250-254 | cost, value and day change are sums over the lots with absent as 0; gain = value - cost; gain percent relative to cost (0 unless cost > 0); day-change percent as above |
| Valuation.AssemblePortfolio | app/services/portfolio_service.py:250-286 | totals, counts and sector allocation of the enriched and aggregated lots |
| Valuation.ValuePortfolio | app/services/portfolio_service.py:218-286 | enrichment, aggregation and roll-up give the specified valuation |
| Valuation.PortfolioCostBasis | app/services/portfolio_service.py:251 | the total cost basis counts every lot, priced or not |
| Valuation.PortfolioValue | app/services/portfolio_service.py:252 | the total value equals the summed value of the aggregated positions |
| Valuation.PortfolioWeights | app/services/portfolio_service.py:329-333 | with a positive total value, the portfolio's weights add up to 100 |
| Valuation.PortfolioCounts | app/services/portfolio_service.py:283-284 | one position per lot, and one symbol per aggregated position |
| Valuation.EmptyLedger | app/services/portfolio_service.py:204-205 | no lots give the empty portfolio |
| History.FirstMaxIndex | app/services/portfolio_service.py:463 | `max` picks a snapshot of the highest value, the first one reaching it |
| History.FirstMinIndex | app/services/portfolio_service.py:464 | `min` picks a snapshot of the lowest value, the first one reaching it |
| History.Summarize | app/services/portfolio_service.py:437-483 | no snapshots give the empty history; otherwise the earliest date and starting value come from the first snapshot, the latest date and current value from the last, and change = last - first |
| History.SummaryChangePct | app/services/portfolio_service.py:466-469 | the change percent is relative to the starting value, 0 when that is not positive |
| History.SummaryHigh | app/services/portfolio_service.py:459-483 | the high bounds every value and is dated by the first snapshot reaching it |
| History.SummaryLow | app/services/portfolio_service.py:459-483 | the low bounds every value from below and is dated by the first snapshot reaching it |
| History.SummaryDateRange | app/services/portfolio_service.py:473-474 | on an ascending window every date lies between the earliest and the latest |
| History.SingleSnapshot | app/services/portfolio_service.py:459-482 | one snapshot: no change, and it is both high and low |
| Attribution.Contribution | app/services/portfolio_service.py:508-518 | 0 when the total is 0; gain / total x 100 when the total is positive; -abs(gain) / abs(total) x 100 when the total is negative, whatever the holding's sign |
| Attribution.LosingTotalContributions | app/services/portfolio_service.py:508-518 | with a losing total every contribution is <= 0 |
| Attribution.WinningTotalContributions | app/services/portfolio_service.py:508-518 | with a winning total a contribution has the sign of the holding's gain |
| Attribution.LosingHoldingInLosingPortfolio | app/services/portfolio_service.py:508-518 | a loss of 20 in a portfolio that lost 100 contributes -20 |
| Attribution.Holding | app/services/portfolio_service.py:520-531 | a holding record copies symbol, value, cost, gain and sector, uses `or 0` for gain percent and weight, and carries the contribution |
| Attribution.HoldingsMeaning | app/services/portfolio_service.py:503-506 | one record per aggregated position with a value and a gain, and no record from any other |
| Attribution.CollectHoldings | app/services/portfolio_service.py:501-531 | the holdings loop skips positions without a value or gain and records the others in order |
| Attribution.TopGainersRanked | app/services/portfolio_service.py:534-535 | at most 5 holdings, all with a positive gain, largest first, and no gainer left out beats one kept |
| Attribution.TopLosersRanked | app/services/portfolio_service.py:534-536 | at most 5 holdings, all with a negative gain, most negative first, and no loser left out lost more than one kept |
| Attribution.TopListsDisjoint | app/services/portfolio_service.py:535-536 | no holding is both a top gainer and a top loser |
| Attribution.SectorOf | app/services/portfolio_service.py:542 | a missing or empty sector is `"Unknown"` |
| Attribution.SectorTotalsMeaning | app/services/portfolio_service.py:539-544 | the per-sector dict has a key exactly for the sectors of the holdings, each holding that sector's sum |
| Attribution.SumBySector | app/services/portfolio_service.py:539-544 | the sector loop sums gains and costs per sector |
| Attribution.SectorKeys | app/services/portfolio_service.py:539-544 | the gain and cost dicts have the same keys |
| Attribution.SectorReturnsMeaning | app/services/portfolio_service.py:546-549 | one return per sector that holds a holding, the return of its summed gain over its summed cost |
| Attribution.SectorPerformance | app/services/portfolio_service.py:546-549 | the comprehension over the two dicts gives the sector returns |
| Attribution.GetPerformance | app/services/portfolio_service.py:487-560 | the breakdown: the empty one without aggregated positions; otherwise the holdings sorted by gain, the rankings, the sector returns and the portfolio's totals |
| Attribution.PerformanceHoldings | app/services/portfolio_service.py:533-552 | the holdings list is a permutation of the records, as many as reported positions, sorted by gain, largest first |
| Attribution.PerformanceTotals | app/services/portfolio_service.py:497-558 | the totals are the portfolio's, or all 0 for a portfolio without positions |
| RateLimiting.RateLimiter.constructor | app/services/rate_limiter.py:19-28 | a new limiter has the given rate, a 60-second window and no timestamps |
| RateLimiting.RateLimiter.PruneExpired | app/services/rate_limiter.py:65-67 | the pruning loop drops exactly the expired run at the front |
| RateLimiting.RateLimiter.AcquireSync | app/services/rate_limiter.py:57-79 | prune, wait at capacity and prune again, then append one timestamp; it sleeps exactly when the pruned deque is at capacity, for window - (now - oldest) + 0.1 seconds, which is at least 0.1; with a deque within the rate and a sleep at least that long, the deque stays within the rate |
| RateLimiting.RateLimiter.Remaining | app/services/rate_limiter.py:81-89 | max(0, rate - timestamps within the window), so between 0 and the rate; it changes nothing |
| RateLimiting.DropCount | app/services/rate_limiter.py:66-67 | the pruning loop pops the leading expired timestamps and stops at the first one within the window |
| RateLimiting.PruneRecent | app/services/rate_limiter.py:65-67 | on a deque oldest first, every retained timestamp is within the window |
| RateLimiting.WaitPositive | app/services/rate_limiter.py:70-74 | the computed wait is at least 0.1 s, since the oldest entry survived pruning |
| RateLimiting.AcquireAppends | app/services/rate_limiter.py:66-79 | each acquire keeps a suffix of the deque and appends exactly one timestamp at the tail |
| RateLimiting.AcquireKeepsOrder | app/services/rate_limiter.py:66-79 | with a clock that never goes back, the deque stays oldest first |
| RateLimiting.AcquireBounded | app/services/rate_limiter.py:70-79 | with a sleep at least as long as asked, the deque never holds more than the rate |
| RateLimiting.FreshLimiter | app/services/rate_limiter.py:19-89 | a fresh limiter has every slot free |
| Validators.ValidateStockSymbol | app/utils/validators.py:16-20 | the empty string is refused; an accepted symbol's normalised form matches the ticker pattern |
| Validators.ValidateMeaning | app/utils/validators.py:18-20 | valid exactly when the upper-cased, stripped symbol is 1-5 letters A-Z, optionally followed by '.' or '-' and 1-2 letters |
| Validators.MatchesTickerShape | app/utils/validators.py:19 | the matcher accepts exactly the strings of the pattern's shape |
| Validators.ValidateIgnoresCase | app/utils/validators.py:20 | a symbol, its lower-case and its upper-case form get the same answer |
| Validators.ValidateIgnoresPadding | app/utils/validators.py:20 | surrounding whitespace does not change the answer |
| Validators.AcceptedShape | app/utils/validators.py:19-20 | an accepted symbol normalises to 1-8 characters, none a digit |
| Validators.ClassSuffixExample | app/utils/validators.py:18 | "BRK.A" is accepted |
| Validators.DigitRefused | app/utils/validators.py:19 | "AAPL1" is refused |
| Config.ParseRecipients | app/config.py:74-78 | an unset or empty setting gives no recipients; otherwise the result is the comma-split fields, each stripped, the blank ones dropped, in input order; every recipient is non-empty, comma-free and trimmed, and there are at most commas + 1 of them |
| Config.Kept | app/config.py:78 | every kept field is non-empty, comma-free and trimmed, and there are no more of them than fields |
| Config.KeptMeaning | app/config.py:78 | the kept fields are exactly the stripped fields that are not blank, in their order |
| Config.JoinParse | app/config.py:78 | joining recipients with commas and parsing again gives them back |
| Text.SplitJoin | app/config.py:78 | splitting comma-joined fields without commas gives the fields back |
| Text.DecimalRoundTrip | app/models/stock.py:140-145 | the rendered count reads back as the count |
| Text.StripUpper | app/models/portfolio.py:36 | upper-casing and stripping commute |
| News.Bucket | app/models/stock.py:138-145 | days exactly when at least a day has passed, hours between 1 and 23, minutes between 0 and 59 |
| News.TimeAgo | app/models/stock.py:130-145 | "{days}d ago" once a day has passed; within a day "{hours}h ago" from one hour on, "{minutes}m ago" before |
| News.SameDay | app/models/stock.py:141-145 | within a day, whole hours of the elapsed seconds from one hour on, whole minutes before |
| News.OffsetIgnored | app/models/stock.py:133-136 | the UTC offset of an aware datetime is dropped, not applied |
| News.FutureArticle | app/models/stock.py:138-143 | an article dated one hour ahead reads as 23 hours ago |
| News.RenderUnits | app/models/stock.py:139-145 | each bucket renders with its own unit letter before " ago" |

## Left out

- SQLite plumbing is left out: connections, SQL text, `_init_database`, and the `created_at`/`updated_at` timestamps. The tables are the class fields described above.
- Ties in `ORDER BY symbol, purchase_date` keep row order. SQLite does not promise any order for them. The lot table is a sequence rather than a map so that this order exists.
- Symbols are ordered character by character, as SQLite's binary collation orders them.
- `Text.Upper`/`Text.Lower` map ASCII letters only. Python's `str.upper()` also maps other Unicode letters, a few of them (ſ, ı, ligatures) to ASCII letters. Validation of such input is not modelled.
- Floating point is modelled as exact `real` arithmetic: no rounding, no overflow, no NaN.
- The quote provider (`stock_service.py`) is not part of this model. Its answers are a map, and a failed fetch has no entry. A `Quote` keeps only the fields the engine reads: price, previous close, sector, industry.
- `RateLimiter.acquire` is not part of this model. It is the asyncio twin of `acquire_sync`. The sleep is modelled as the clock readings before and after it.
- RateLimiting.RateLimiter.constructor: requires a rate of at least 1. With 0, the capacity branch reads the oldest entry of an empty deque and raises.
- Ledger.PortfolioService.GetHistory: `days` is a `nat`. SQLite's date modifier for a negative count is not modelled. The window bound is today - days in day numbers.
- Ledger.Upsert: an existing date keeps its row id. SQLite's `ON CONFLICT DO UPDATE` does the same.
- Attribution.GetPerformance: the breakdown is empty only when there are no aggregated positions. A portfolio whose positions are all unpriced gives a breakdown with empty lists and the portfolio's totals, as the code does.
- News.TimeAgo: a publication time in the future is not refused. Because only the days of the normalised delta are tested, it is labelled with the hours of the wrapped delta (`News.FutureArticle`).
- Formatting of numbers for display, the terminal UI, the newsletter, e-mail, AI services and the command-line entry points are not part of this model.
