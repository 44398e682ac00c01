# Market-data dashboard core, modelled in Dafny

This project models the algorithmic core of a Binance market-data dashboard.

The backend side:
- a WebSocket client opens eight exchange streams (five kline intervals, a 20-level depth stream, aggregated trades and mark price);
- the client reconnects a dropped stream up to five times;
- it tags each message with a stream type taken from the endpoint name;
- a normaliser maps the message to a kline, order-book, trade or funding record;
- an in-memory store keeps capped FIFO buffers, a single order-book slot, trade-volume totals by size class, an age sweep, and reads by time frame ("24h", "7d", ...).

The frontend side:
- two socket hooks, each with its own reconnect-counter rule;
- a polling hook with option defaults, a query string and an exponential retry rule;
- the exchange proxy route (URL building and response reshaping);
- the CoinGecko proxy route, which turns daily price and volume series into kline records;
- a client-side normaliser and aggregator;
- the state updaters of five dashboard widgets:
  - one-minute buy/sell buckets capped at thirty;
  - a three-slot twenty-second volume ring;
  - a synthetic liquidation ladder sorted by price;
  - a twenty-point liquidation window with long/short totals;
  - a ten-pulse volume list.

How the model is built:
- Files whose state changes step by step are classes: the store, the stream client, the three hooks, the `URLSearchParams` object and two widgets. Each method's new state is tied to a pure step function. Lemmas about those functions, and about whole event traces, carry the properties.
- Pure files are datatypes, functions and lemmas.
- Socket events, timer expiries, the clock (`now`) and `Math.random` draws are all parameters.
- JavaScript numbers are `Num` (`NaN` or an exact real). `parseFloat` and `parseInt` are written out for decimal text.
- JSON values, including `undefined`, are the `Json` datatype.

Helper modules:
- `Wrappers`: `Option`/`Result`.
- `Text`: digits, `indexOf`, `split` pieces, lower case.
- `Numbers`: JavaScript arithmetic with `NaN`, and the parsers.
- `JsonValue`: field and index reads, truthiness, `map` that may throw. Indexing an object reads the property named by the index's decimal form, as `item[0]` reads `"0"`.
- `Seqs`: `slice(-n)`, `filter`, sums, and a sort.
- `QueryParams`: `URLSearchParams`.

## Model

| member | source | states |
|---|---|---|
| Processor.ProcessDataRoutes | backend/services/dataProcessor.js:2-16 | types starting with `kline` go to the kline mapper and `depth20`, `aggTrade` and `markPrice` to the order-book, trade and funding mappers, each as an iff; the kline mapper throws iff `k` is missing and the order-book mapper iff `asks` or `bids` is; every other type returns the message unchanged |
| Processor.ProcessKlineData | backend/services/dataProcessor.js:18-31 | throws iff the message has no `k`; otherwise the record's interval, timestamp and closed flag are `k.i`, `k.t` and `k.x` |
| Processor.KlineFields | backend/services/dataProcessor.js:18-31 | a kline-typed message with a `k` yields a kline record carrying the interval, open time and closed flag, with each price field parsed from the string of the same name |
| Processor.MapLevels | backend/services/dataProcessor.js:37-44 | each `[price, quantity]` pair becomes a level of two parsed numbers, keeping length and order |
| Processor.ProcessOrderBookData | backend/services/dataProcessor.js:33-46 | throws iff `asks` or `bids` is missing; otherwise the book is stamped with the local clock and keeps the length of both sides |
| Processor.OrderBookFields | backend/services/dataProcessor.js:33-46 | `depth20` with both sides present gives an order-book record stamped with the clock, whose asks and bids are the message's pairs, parsed, in order |
| Processor.ProcessTradeData | backend/services/dataProcessor.js:48-56 | the trade's timestamp is `T` and its buyer-maker flag is `m` |
| Processor.ProcessFundingRateData | backend/services/dataProcessor.js:58-65 | the funding timestamp is `E` |
| Processor.TradeAndFundingFields | backend/services/dataProcessor.js:48-65 | `aggTrade` and `markPrice` give exactly the trade (`T`, `p`, `q`, `m`) and funding (`E`, `r`, `p`) records |
| Processor.ProcessedTagsAreStored | backend/services/dataProcessor.js:2-65 | every tagged output's tag is one of the four the store dispatches on, and only a pass-through is untagged |
| Processor.ProcessData | backend/services/dataProcessor.js:2-16 | `processData`: the dispatch on the stream type, with None for a mapper that throws; its outcomes are stated by `ProcessDataRoutes` |
| Storage.AppendCappedBounded | backend/services/storageService.js:95-120 | push-then-shift keeps a buffer within its cap, puts the new element last, and drops the oldest exactly when the buffer was full |
| Storage.AppendUncapped | backend/services/storageService.js:97-103 | with an undefined cap the comparison is false and the buffer only grows |
| Storage.StorePreservesCaps | backend/services/storageService.js:76-120 | every write keeps every configured buffer within its cap |
| Storage.StoreKlineAtCapacity | backend/services/storageService.js:95-105 | a kline for a full configured interval drops that buffer's oldest candle and ends with the new one; no other series changes |
| Storage.StoreKlineUncapped | backend/services/storageService.js:97-103 | a kline for an unconfigured interval is appended with no eviction |
| Storage.StoreTradeFifo | backend/services/storageService.js:107-113 | a trade stored when the trade buffer holds 1000000 entries evicts the oldest and ends with the new trade |
| Storage.StoreFundingFifo | backend/services/storageService.js:115-120 | a funding sample stored when the funding buffer holds 2160 entries evicts the oldest and ends with the new sample |
| Storage.StoreOrderBookReplaces | backend/services/storageService.js:76-93 | an order-book write replaces the single slot and changes nothing else, so writing it twice is the same as once; an untagged value changes nothing |
| Storage.NewerKeepsExactly | backend/services/storageService.js:44-55 | the age filter keeps exactly the records strictly newer than the cutoff: each such record with all its copies, no other record, in the buffer's order |
| Storage.NewerIdempotent | backend/services/storageService.js:44-55 | filtering twice with the same cutoff equals filtering once |
| Storage.CleanKeepsExactlyNewer | backend/services/storageService.js:42-66 | every kline buffer (the same intervals), the trades and the funding samples keep exactly the records with `timestamp > now - maxAge`, with their copies and in order (a record at the cutoff goes); the order book is kept, and the volume totals are zeroed only at 00:00 |
| Storage.CleanIdempotent | backend/services/storageService.js:42-66 | a second sweep at the same time is a no-op |
| Storage.CleanPreservesCaps | backend/services/storageService.js:42-55 | the sweep keeps the capacity invariant |
| Storage.SizeClassRanges | backend/services/storageService.js:122-133 | the value classes are `> 100000`, `(10000, 100000]`, `(1000, 10000]` and `<= 1000`, each stated as an iff; a NaN value is small |
| Storage.ClassifiedTouchesOneBucket | backend/services/storageService.js:122-133 | exactly the trade's class total grows, by the trade's quantity; the other three are unchanged |
| Storage.ParseTimeframeUnits | backend/services/storageService.js:162-173 | `<n>h`, `<n>d`, `<n>w` and `<n>m` (either case) give n hours, days, 7 days or 30 days in ms; any other unit gives the 90-day horizon |
| Storage.GetDataWithoutTimeframe | backend/services/storageService.js:135-160 | without a time frame a read returns the stored buffer (or the whole kline table) itself |
| Storage.GetDataWithTimeframe | backend/services/storageService.js:135-173 | with a time frame of n hours, days, weeks or months, a kline read for an interval, a trade read and a funding read each return exactly the stored records newer than `now` minus that span, with their copies and in stored order |
| Storage.GetDataWithSpan | backend/services/storageService.js:135-160 | with any time frame that parses to a number, the kline, trade and funding reads return exactly the stored records newer than `now` minus the span, with their copies and in stored order |
| Storage.LatestSpec | backend/services/storageService.js:175-182 | `lastPrice` is present iff there is a trade and is the last trade's price; the funding rate is the last funding sample |
| Storage.LatestPriceAfterTrade | backend/services/storageService.js:107-113 | after a trade is stored it is the newest trade and the latest price is its price |
| Storage.StoredKlineLast | backend/services/storageService.js:95-105 | a kline whose interval has a cap becomes the newest candle of that interval's buffer |
| Storage.StoreKlineSpec | backend/services/storageService.js:95-105 | `storeKline`: push onto the interval's buffer, then shift when it exceeds that interval's cap; stated by `StoreKlineAtCapacity`, `StoreKlineUncapped` and `StoredKlineLast` |
| Storage.StoreTradeSpec | backend/services/storageService.js:107-113 | `storeTrade`: the capped append, then the volume classification; stated by `StoreTradeFifo` and `LatestPriceAfterTrade` |
| Storage.StoreFundingSpec | backend/services/storageService.js:115-120 | `storeFunding`: the capped append; stated by `StoreFundingFifo` |
| Storage.StoreSpec | backend/services/storageService.js:76-93 | `store`: the dispatch on the record's tag; stated by `StorePreservesCaps` and `StoreOrderBookReplaces` |
| Storage.CleanSpec | backend/services/storageService.js:42-66 | `cleanOldData`: the age filter on every buffer and the midnight reset; stated by `CleanKeepsExactlyNewer`, `CleanIdempotent` and `CleanPreservesCaps` |
| Storage.Newer | backend/services/storageService.js:44-55 | the `timestamp > cutoff` filter; stated by `NewerKeepsExactly` and `NewerIdempotent` |
| Storage.Classified | backend/services/storageService.js:122-133 | `updateVolumeClassification`; stated by `SizeClassRanges` and `ClassifiedTouchesOneBucket` |
| Storage.ParseTimeframe | backend/services/storageService.js:162-173 | `parseTimeframe`; stated by `ParseTimeframeUnits` |
| Storage.GetDataSpec | backend/services/storageService.js:135-160 | `getData`; stated by `GetDataWithoutTimeframe`, `GetDataWithTimeframe` and `GetDataWithSpan` |
| Storage.StorageService.constructor | backend/services/storageService.js:2-20 | five empty kline buffers, no order book, empty trade and funding buffers, zero totals |
| Storage.StorageService.StoreKline | backend/services/storageService.js:95-105 | the new state is the kline store step, and the caps still hold |
| Storage.StorageService.UpdateVolumeClassification | backend/services/storageService.js:122-133 | only the volume totals change, by the size-class rule |
| Storage.StorageService.StoreTrade | backend/services/storageService.js:107-113 | the new state is the capped trade append, and the caps still hold |
| Storage.StorageService.StoreFunding | backend/services/storageService.js:115-120 | the new state is the capped funding append, and the caps still hold |
| Storage.StorageService.Store | backend/services/storageService.js:76-93 | the new state is the tag dispatch's result, and the caps still hold |
| Storage.StorageService.CleanOldData | backend/services/storageService.js:42-66 | the new state is the sweep's result, and the caps still hold |
| Storage.StorageService.GetData | backend/services/storageService.js:135-160 | `getData` reads the current state through `GetDataSpec`; its results are stated by the `GetDataWith…` lemmas |
| Storage.StorageService.GetLatestData | backend/services/storageService.js:175-182 | `getLatestData` reads the current state through `LatestSpec`, whose contract states the summary |
| BinanceService.Endpoints | backend/services/binanceService.js:13-29 | `connect` opens exactly eight endpoints |
| BinanceService.ConnectOpensEndpoints | backend/services/binanceService.js:16-58 | on a fresh service, `connect` stores sockets under exactly the eight endpoints |
| BinanceService.ConnectAllKeys | backend/services/binanceService.js:31-59 | connecting a list adds exactly those keys, each with a newer socket that replaces any earlier one; others and the counters are untouched |
| BinanceService.StreamType | backend/services/binanceService.js:73-76 | the type is missing exactly when the endpoint has no `@`; otherwise it holds neither `@` nor `_` |
| BinanceService.StreamTypeOfEndpoint | backend/services/binanceService.js:74 | the type of `symbol@name_...` or `symbol@name@...` is `name` |
| BinanceService.KlineStreamType | backend/services/binanceService.js:73-74 | a kline endpoint's type is `kline` |
| BinanceService.DepthStreamType | backend/services/binanceService.js:73-74 | the depth endpoint's type is `depth20` |
| BinanceService.AggTradeStreamType | backend/services/binanceService.js:73-74 | the trade endpoint's type is `aggTrade` |
| BinanceService.MarkPriceStreamType | backend/services/binanceService.js:73-74 | the mark-price endpoint's type is `markPrice` |
| BinanceService.EndpointTypes | backend/services/binanceService.js:16-76 | the eight endpoints yield `kline` five times, then `depth20`, `aggTrade` and `markPrice` |
| BinanceService.TypedBranches | backend/services/dataProcessor.js:3-12 | `kline` and `depth20` give a kline and an order-book record unless their mapper throws, and `aggTrade` and `markPrice` always give a trade and a funding record |
| BinanceService.EndpointsReachTypedBranches | backend/services/binanceService.js:73-76 | a parsed message on any of the eight endpoints is emitted with a type that the normaliser never passes through untagged |
| BinanceService.Emitted | backend/services/binanceService.js:40-76 | an event is emitted iff the payload parsed and the endpoint has an `@`, with the derived type and the parsed data |
| BinanceService.StepAttempts | backend/services/binanceService.js:35-56 | only that endpoint's open (to 0) or close (+1) changes its counter; messages and errors change nothing |
| BinanceService.CloseSchedulesIff | backend/services/binanceService.js:61-71 | a close schedules a reconnect iff the incremented counter is at most 5; only that endpoint's counter and timers change |
| BinanceService.ReconnectBound | backend/services/binanceService.js:61-71 | along any trace with no open of the endpoint, at most `5 - counter` reconnects are scheduled for it |
| BinanceService.AtMostFiveAfterOpen | backend/services/binanceService.js:12-71 | at most five reconnects follow the last successful open |
| BinanceService.DisconnectKeepsCounters | backend/services/binanceService.js:78-84 | `disconnect` empties `connections`, keeps the attempt counters, and is idempotent |
| BinanceService.CloseAfterDisconnectReconnects | backend/services/binanceService.js:49-84 | a close after `disconnect` still schedules a reconnect while the counter allows it, and the timer reopens the socket |
| BinanceService.BinanceService.constructor | backend/services/binanceService.js:7-14 | no connections, no counters, no timers |
| BinanceService.BinanceService.ConnectToStream | backend/services/binanceService.js:31-59 | the socket URL is the base, `/`, then the endpoint; the socket is stored under the endpoint |
| BinanceService.BinanceService.Connect | backend/services/binanceService.js:16-29 | the new state is that of connecting the eight endpoints in order |
| BinanceService.BinanceService.OnOpen | backend/services/binanceService.js:35-38 | the endpoint's counter becomes 0 |
| BinanceService.BinanceService.OnClose | backend/services/binanceService.js:49-71 | the counter is incremented; a 5000 ms reconnect is reported iff the close schedules one |
| BinanceService.BinanceService.OnTimerFired | backend/services/binanceService.js:67 | a pending timer reconnects the endpoint |
| BinanceService.BinanceService.OnMessage | backend/services/binanceService.js:40-76 | the emitted event is the one `Emitted` describes |
| BinanceService.BinanceService.Disconnect | backend/services/binanceService.js:78-84 | every stored socket is closed and the state is the disconnect step's |
| BinanceService.ConnectSpec | backend/services/binanceService.js:31-59 | `connectToStream`: a fresh socket stored under the endpoint; stated by `ConnectAllKeys` |
| BinanceService.ConnectAllSpec | backend/services/binanceService.js:16-29 | `connect`: `connectToStream` for each endpoint in order; stated by `ConnectAllKeys` and `ConnectOpensEndpoints` |
| BinanceService.OpenSpec | backend/services/binanceService.js:35-38 | the open handler: the endpoint's counter becomes 0; stated by `StepAttempts` |
| BinanceService.CloseSpec | backend/services/binanceService.js:61-71 | `handleReconnect`: increment, then schedule while at most 5; stated by `CloseSchedulesIff` and `ReconnectBound` |
| BinanceService.TimerSpec | backend/services/binanceService.js:67 | the reconnect timer: one pending timer reopens the endpoint; stated by `CloseAfterDisconnectReconnects` |
| BinanceService.DisconnectSpec | backend/services/binanceService.js:78-84 | `disconnect`; stated by `DisconnectKeepsCounters` |
| BinanceService.Step | backend/services/binanceService.js:35-84 | one socket, timer or disconnect event; stated by `StepAttempts`, `ReconnectBound` and `AtMostFiveAfterOpen` |
| Server.PipelinePreservesCaps | server.js:57-60 | normalising and storing a stream message, or dropping one whose mapper throws, keeps every buffer within its cap |
| Server.TradeMessageSetsLastPrice | server.js:57-60 | a trade message becomes the newest trade, so the latest price is its parsed `p`; an unparsable message changes nothing |
| Server.TradePipelineStores | server.js:57-60 | a message on an aggregated-trade stream is stored as that message's trade |
| Server.KlineMessageStored | server.js:57-60 | a kline message with a `k` object lands last in the buffer of the interval it names, when that interval has a cap |
| Server.KlinePipelineStores | server.js:57-60 | a message with a `k` object on a kline stream is stored as that message's kline |
| Server.MissingFieldChangesNothing | backend/services/binanceService.js:40-46 | a kline message without `k` or an order-book message without `asks` or `bids` throws in the normaliser, and the store is left unchanged |
| Server.UnparsedChangesNothing | server.js:57-60 | a message that does not parse leaves the store unchanged |
| Server.PipelineSpec | server.js:57-60 | the `data` listener: process, then store, with nothing stored when the payload does not parse or the mapper throws; stated by the `Server` lemmas |
| Server.OnData | server.js:57-60 | the store's new state is the pipeline specification's |
| DataProcessing.KlineItem | app/services/DataProcessingService.ts:55-68 | a row fails (throws) iff it is null or undefined |
| DataProcessing.TradeItem | app/services/DataProcessingService.ts:95-103 | a trade fails iff it is null or undefined |
| DataProcessing.KlineShape | app/services/DataProcessingService.ts:47-70 | a non-array gives null; otherwise there is one record per row, in order, with field j taken from index j for j = 0..11 |
| DataProcessing.OrderBookShape | app/services/DataProcessingService.ts:72-85 | null iff the data is falsy or `bids`/`asks` are not arrays; otherwise each side is the first (at most) ten levels, in order |
| DataProcessing.TradeAndTickerShape | app/services/DataProcessingService.ts:87-121 | trades: null for a non-array; an array succeeds iff no trade is null or undefined, and then the fields are copied per trade in order; ticker: null iff falsy or not an object, otherwise its five fields are copied under the symbol |
| DataProcessing.ProcessDataOutcomes | app/services/DataProcessingService.ts:123-152 | an unsupported type throws 'Unsupported data type', a null order-book or ticker result throws 'Failed to process … data', a throw from a kline row or a trade is rethrown with its message, and otherwise the processor's record is returned, for each of the four types |
| DataProcessing.ProcessDataNonArray | app/services/DataProcessingService.ts:47-145 | kline or trade data that is not an array gets null from its processor, so `processData` throws 'Failed to process … data' |
| DataProcessing.Highs | app/services/DataProcessingService.ts:177 | the parsed highs, one per kline |
| DataProcessing.Lows | app/services/DataProcessingService.ts:178 | the parsed lows, one per kline |
| DataProcessing.Volumes | app/services/DataProcessingService.ts:179 | the parsed volumes, one per kline |
| DataProcessing.KlineAggregateBounds | app/services/DataProcessingService.ts:174-182 | the highest price is at least every high, the lowest price at most every low, and the change is the last close minus the first open |
| DataProcessing.KlineSummaryBounds | app/services/DataProcessingService.ts:175-180 | over any non-empty kline list the highest price bounds every high, the lowest every low, and the change is the last close minus the first open |
| DataProcessing.HighestBoundsHighs | app/services/DataProcessingService.ts:176 | a numeric maximum of the highs is at least every kline's parsed high |
| DataProcessing.LowestBoundsLows | app/services/DataProcessingService.ts:177 | a numeric minimum of the lows is at most every kline's parsed low |
| DataProcessing.OrderBookAggregateReadsLast | app/services/DataProcessingService.ts:184-191 | the counts are the last book's side lengths, whatever precedes it |
| DataProcessing.Quantities | app/services/DataProcessingService.ts:195-200 | the parsed quantities, one per trade |
| DataProcessing.SumOfCons | app/services/DataProcessingService.ts:195-200 | a trade in front adds its quantity to the sum |
| DataProcessing.SplitSum | app/services/DataProcessingService.ts:195-200 | the buy-side sum plus the sell-side sum equals the sum of all quantities |
| DataProcessing.TradeAggregateSplit | app/services/DataProcessingService.ts:193-208 | buy volume sums over `!isBuyerMaker` trades and sell volume over the rest; they add up to the total quantity, and the count is the number of trades |
| DataProcessing.AggregateDataRoutes | app/services/DataProcessingService.ts:154-172 | `kline`, `orderbook`, `trades` and `ticker` each give exactly their own aggregate; an unknown type fails with 'Unsupported data type'; no payload for kline, orderbook or ticker fails |
| DataProcessing.ProcessKlineData | app/services/DataProcessingService.ts:47-70 | `processKlineData`; stated by `KlineShape` |
| DataProcessing.ProcessOrderBookData | app/services/DataProcessingService.ts:72-85 | `processOrderBookData`; stated by `OrderBookShape` |
| DataProcessing.ProcessTradeData | app/services/DataProcessingService.ts:87-105 | `processTradeData`; stated by `TradeAndTickerShape` |
| DataProcessing.ProcessTickerData | app/services/DataProcessingService.ts:107-121 | `processTickerData`; stated by `TradeAndTickerShape` |
| DataProcessing.ProcessData | app/services/DataProcessingService.ts:123-152 | `processData`; stated by `ProcessDataOutcomes` and `ProcessDataNonArray` |
| DataProcessing.AggregateKlineData | app/services/DataProcessingService.ts:174-182 | `aggregateKlineData`; stated by `KlineAggregateBounds` |
| DataProcessing.AggregateOrderBookData | app/services/DataProcessingService.ts:184-191 | `aggregateOrderBookData`; stated by `OrderBookAggregateReadsLast` |
| DataProcessing.AggregateTradeData | app/services/DataProcessingService.ts:193-208 | `aggregateTradeData`; stated by `TradeAggregateSplit` |
| DataProcessing.AggregateTickerData | app/services/DataProcessingService.ts:210-218 | `aggregateTickerData`: the last payload's four figures, parsed; its success on a non-empty list is stated by `AggregateDataRoutes` |
| DataProcessing.AggregateData | app/services/DataProcessingService.ts:154-172 | `aggregateData`; stated by `AggregateDataRoutes` |
| BinanceRoute.KlineRow | app/api/binance/route.ts:12-25 | a row fails iff it is null or undefined |
| BinanceRoute.LevelPair | app/api/binance/route.ts:30-37 | destructuring `[price, quantity]` fails with the not-iterable error iff the pair is neither an array nor a string; otherwise price and quantity are elements 0 and 1 (a string's characters), parsed |
| BinanceRoute.LevelPairOfString | app/api/binance/route.ts:30-33 | a string pair splits into characters: `"12"` gives price 1 and quantity 2 |
| BinanceRoute.TradeRow | app/api/binance/route.ts:40-48 | a trade fails iff it is null or undefined |
| BinanceRoute.FormatKlines | app/api/binance/route.ts:12-25 | a non-array fails; otherwise there is one record per row, in order, holding columns 0-10 (prices parsed), and column 11 is dropped |
| BinanceRoute.FormatOrderBook | app/api/binance/route.ts:27-38 | a nullish body or a side that is not an array fails; with both sides arrays it succeeds iff every element of both can be destructured; both sides keep their length and order, each pair parsed |
| BinanceRoute.FormatTrades | app/api/binance/route.ts:40-48 | one record per trade, in order, with the quantity read from `qty` |
| BinanceRoute.FormatTickerAndFunding | app/api/binance/route.ts:50-67 | the ticker and funding reshapes fail iff the data is null or undefined; otherwise every figure is `parseFloat` of its field, and `symbol` and `fundingTime` are copied unparsed |
| BinanceRoute.FormatOtherUnchanged | app/api/binance/route.ts:70-71 | any other endpoint passes the data through unchanged |
| BinanceRoute.ApiUrlRoutes | app/api/binance/route.ts:76-98 | exactly the five names have a URL; only `fundingRate` uses the futures base; each maps to its path; anything else is 'Invalid endpoint' |
| BinanceRoute.KlineIntervalDefault | app/api/binance/route.ts:80-82 | a kline request gets `interval=1d` iff it has no non-empty interval; other names and endpoints are untouched |
| BinanceRoute.GetApiUrl | app/api/binance/route.ts:76-98 | the parameters are updated by the interval default, and the URL is built from the updated parameters |
| BinanceRoute.RouteOutcomes | app/api/binance/route.ts:100-127 | no endpoint gives a 400 and no fetch; an unknown endpoint gives a 500; an OK body that formats gives a 200 with the formatted body |
| BinanceRoute.RouteGet | app/api/binance/route.ts:100-127 | the response and the fetched URL are the route specification's |
| BinanceRoute.FormatData | app/api/binance/route.ts:10-73 | `formatData` by endpoint; stated by `FormatKlines`, `FormatOrderBook`, `FormatTrades` and `FormatOtherUnchanged` |
| BinanceRoute.ApiParams | app/api/binance/route.ts:80-82 | the kline interval default; stated by `KlineIntervalDefault` |
| BinanceRoute.ApiUrl | app/api/binance/route.ts:83-98 | the base and path by endpoint; stated by `ApiUrlRoutes` |
| BinanceRoute.RouteSpec | app/api/binance/route.ts:100-127 | the `GET` handler; stated by `RouteOutcomes` |
| CryptoRoute.FindIndex | app/api/crypto/route.ts:48-49 | `find` stops at the first element with the timestamp, or at the end |
| CryptoRoute.ConvertErrors | app/api/crypto/route.ts:33-43 | missing data or prices give 'Invalid market data format'; missing volumes throw; otherwise it converts (iff) |
| CryptoRoute.ConvertOrder | app/api/crypto/route.ts:39-64 | one record per price, in ascending time order, and the (time, close) pairs are a permutation of the input prices |
| CryptoRoute.OpenIsPreviousClose | app/api/crypto/route.ts:52 | `open[0] = close[0]` and `open[i] = close[i-1]` |
| CryptoRoute.VolumeByTimestamp | app/api/crypto/route.ts:48-49 | the volume is that of the first entry with an equal timestamp, which is an input entry; with none it is 0 |
| CryptoRoute.ConvertAt | app/api/crypto/route.ts:39-43 | the i-th record is built from the i-th price point of the sorted copy, with the sorted volume series |
| CryptoRoute.DerivedFields | app/api/crypto/route.ts:43-72 | a record's time and close are its price point's; close time is one day later, quote volume is volume times close, trades is floor(volume/10), and the taker-buy fields are 60% |
| CryptoRoute.PriceBand | app/api/crypto/route.ts:56-57 | with positive prices, low < min(open, close) <= max(open, close) < high, at 0.5% each side |
| CryptoRoute.CryptoOutcomes | app/api/crypto/route.ts:78-156 | a non-kline endpoint gives 400 `UNSUPPORTED_ENDPOINT` with no fetch; otherwise the coin chart is fetched (bitcoin/usd/30 by default) and a converting body gives 200 |
| CryptoRoute.FindVolume | app/api/crypto/route.ts:48-49 | the `find` with its `[timestamp, 0]` fallback; stated by `FindIndex` and `VolumeByTimestamp` |
| CryptoRoute.KlineAt | app/api/crypto/route.ts:43-72 | one output record; stated by `OpenIsPreviousClose`, `DerivedFields` and `PriceBand` |
| CryptoRoute.ConvertToKlineFormat | app/api/crypto/route.ts:33-74 | `convertToKlineFormat`; stated by `ConvertErrors`, `ConvertOrder` and `ConvertAt` |
| CryptoRoute.MarketChartUrl | app/api/crypto/route.ts:9 | the CoinGecko market-chart URL; stated by `CryptoOutcomes` |
| CryptoRoute.CryptoGet | app/api/crypto/route.ts:78-156 | the `GET` handler; stated by `CryptoOutcomes` |
| WebSocketManager.SocketUrl | app/hooks/useWebSocketManager.ts:10-25 | the URL is `wss://fstream.binance.com/ws/` followed by the endpoint |
| WebSocketManager.ReconnectBound | app/hooks/useWebSocketManager.ts:52-65 | with no open, at most `5 - counter` reconnects are scheduled |
| WebSocketManager.AtMostFiveAfterOpen | app/hooks/useWebSocketManager.ts:12-65 | at most five reconnects follow an open |
| WebSocketManager.Closes | app/hooks/useWebSocketManager.ts:52-65 | a run of n close events |
| WebSocketManager.RunCloses | app/hooks/useWebSocketManager.ts:52-55 | each close increments the counter before checking it |
| WebSocketManager.RunAppend | app/hooks/useWebSocketManager.ts:28-65 | running one more event is one more step |
| WebSocketManager.SixthCloseGivesUp | app/hooks/useWebSocketManager.ts:58-64 | after an open and five closes, a sixth close schedules nothing and sets 'Maximum reconnection attempts reached' |
| WebSocketManager.BadMessageOnlySetsError | app/hooks/useWebSocketManager.ts:36-50 | a bad payload only sets 'Error processing market data'; a good one changes no counter state; an error event schedules nothing |
| WebSocketManager.Manager.constructor | app/hooks/useWebSocketManager.ts:23-71 | mounting starts from the initial state, with the creation error when the socket cannot be built |
| WebSocketManager.Manager.Url | app/hooks/useWebSocketManager.ts:25 | the URL is the socket URL of the endpoint |
| WebSocketManager.Manager.OnOpen | app/hooks/useWebSocketManager.ts:28-34 | the new state is the open step's |
| WebSocketManager.Manager.OnMessage | app/hooks/useWebSocketManager.ts:36-44 | the new state is the message step's |
| WebSocketManager.Manager.OnError | app/hooks/useWebSocketManager.ts:46-50 | the new state is the error step's |
| WebSocketManager.Manager.OnClose | app/hooks/useWebSocketManager.ts:52-65 | a 3000 ms reconnect is reported iff the close schedules one |
| WebSocketManager.Manager.OnTimerFired | app/hooks/useWebSocketManager.ts:23-61 | the new state is the timer step's |
| WebSocketManager.Step | app/hooks/useWebSocketManager.ts:23-71 | one socket or timer event; stated by `ReconnectBound`, `SixthCloseGivesUp` and `BadMessageOnlySetsError` |
| BinanceWebSocket.WebSocketUrlShape | app/hooks/useBinanceWebSocket.ts:9-26 | every URL is under the base; a known stream's URL is the lower-cased symbol with `@trade`, `@kline_<interval>` (default `1m`) or `@depth` |
| BinanceWebSocket.MountInv | app/hooks/useBinanceWebSocket.ts:35-74 | the first connect yields a state in which at most one socket or timer is outstanding |
| BinanceWebSocket.StepInv | app/hooks/useBinanceWebSocket.ts:39-70 | every event keeps that invariant |
| BinanceWebSocket.ReconnectBound | app/hooks/useBinanceWebSocket.ts:60-70 | with no open, at most `5 - counter` reconnects happen |
| BinanceWebSocket.OpenResets | app/hooks/useBinanceWebSocket.ts:39-43 | an open sets the counter to 0 |
| BinanceWebSocket.AtMostFiveAfterOpen | app/hooks/useBinanceWebSocket.ts:31-70 | at most five reconnects follow an open |
| BinanceWebSocket.CloseChecksBeforeIncrement | app/hooks/useBinanceWebSocket.ts:60-70 | below the limit a close schedules a timer and leaves the counter; at the limit it sets 'Max reconnection attempts reached' |
| BinanceWebSocket.MessageAndErrorEffects | app/hooks/useBinanceWebSocket.ts:45-58 | a good payload sets the data and clears the error; a bad one changes nothing; an error event only sets the error |
| BinanceWebSocket.FailureStops | app/hooks/useBinanceWebSocket.ts:71-74 | a construction failure leaves nothing that reconnects |
| BinanceWebSocket.FailedStaysDead | app/hooks/useBinanceWebSocket.ts:60-74 | with no socket and no timer, no event reconnects |
| BinanceWebSocket.Hook.constructor | app/hooks/useBinanceWebSocket.ts:35-74 | the state is the first connect's |
| BinanceWebSocket.Hook.OnOpen | app/hooks/useBinanceWebSocket.ts:39-43 | the new state is the open step's |
| BinanceWebSocket.Hook.OnMessage | app/hooks/useBinanceWebSocket.ts:45-53 | the new state is the message step's |
| BinanceWebSocket.Hook.OnError | app/hooks/useBinanceWebSocket.ts:55-58 | the new state is the error step's |
| BinanceWebSocket.Hook.OnClose | app/hooks/useBinanceWebSocket.ts:60-70 | a 3000 ms timer is reported iff a socket was live and the counter was below 5 |
| BinanceWebSocket.Hook.OnTimerFired | app/hooks/useBinanceWebSocket.ts:63-66 | the timer increments the counter and reopens the stream's URL |
| BinanceWebSocket.GetWebSocketUrl | app/hooks/useBinanceWebSocket.ts:9-26 | `getWebSocketUrl`; stated by `WebSocketUrlShape` |
| BinanceWebSocket.Step | app/hooks/useBinanceWebSocket.ts:35-74 | one socket or timer event; stated by `StepInv`, `ReconnectBound`, `CloseChecksBeforeIncrement` and `MessageAndErrorEffects` |
| BinanceData.Defaults | app/hooks/useBinanceData.ts:82 | undefined options become BTCUSDT, 20 and 1000; defined ones are kept |
| BinanceData.QueryEntries | app/hooks/useBinanceData.ts:87-92 | four parameters when a non-empty interval is given, else three |
| BinanceData.QueryParameters | app/hooks/useBinanceData.ts:83-92 | the query names the endpoint, symbol and limit, and carries the interval iff the options give a non-empty one |
| BinanceData.ForwardsQuery | app/hooks/useBinanceData.ts:48-95 | when no value holds a `?`, the fetcher forwards exactly the built query |
| BinanceData.KeyForwardsQuery | app/hooks/useBinanceData.ts:48-95 | the text after `binance?` is forwarded whole when it holds no `?` |
| BinanceData.DeclaredEndpointsRejected | app/hooks/useBinanceData.ts:19-24 | `depth` and `ticker/24hr`, allowed by the option types, are rejected by the route's URL builder |
| BinanceData.RetryDelays | app/hooks/useBinanceData.ts:107 | the delays are 500, 1000 and 2000 ms, each double the last |
| BinanceData.IsLoading | app/hooks/useBinanceData.ts:122 | loading is never reported with an error, is reported with no error and no data, and is never reported once data is truthy |
| BinanceData.RetryBound | app/hooks/useBinanceData.ts:101-109 | while no failure arrives with a retry waiting, at most `3 - (count + waiting)` retries are scheduled |
| BinanceData.AtMostThreeRetries | app/hooks/useBinanceData.ts:85-103 | under that condition at most three retries happen |
| BinanceData.OverlappingErrorsExceedLimit | app/hooks/useBinanceData.ts:101-109 | four failures before a retry fires schedule four retries, and the counter reaches 4 |
| BinanceData.GuardedRetryBound | app/hooks/useBinanceData.ts:101-109 | under the corrected rule at most three retries happen, whatever the failures |
| BinanceData.Retrier.constructor | app/hooks/useBinanceData.ts:84 | the counter starts at 0 with no timers |
| BinanceData.Retrier.OnError | app/hooks/useBinanceData.ts:101-109 | a retry is scheduled iff the counter is below 3, after `2^count * 500` ms |
| BinanceData.Retrier.OnRetryFired | app/hooks/useBinanceData.ts:104-106 | a pending timer increments the counter and refetches |
| BinanceData.SwrKey | app/hooks/useBinanceData.ts:87-95 | the SWR key `binance?` plus the query; stated by `ForwardsQuery` |
| BinanceData.ForwardedQuery | app/hooks/useBinanceData.ts:48 | `url.split('?')[1]`; stated by `KeyForwardsQuery` |
| BinanceData.Step | app/hooks/useBinanceData.ts:101-109 | the retry rule as written; stated by `RetryBound` and `OverlappingErrorsExceedLimit` |
| TradeVolume.MinuteOf | app/components/TradeVolume.tsx:51 | the key is a multiple of 60000 in `(now - 60000, now]` |
| TradeVolume.MinuteMonotone | app/components/TradeVolume.tsx:51 | later times do not get earlier keys |
| TradeVolume.SameMinuteAddsToLast | app/components/TradeVolume.tsx:54-59 | a same-minute trade adds to `sellVolume` if buyer-maker, else to `buyVolume`; the other side and the other buckets are unchanged |
| TradeVolume.NewMinuteAppends | app/components/TradeVolume.tsx:60-66 | otherwise a new bucket is appended, with the volume on one side and 0 on the other |
| TradeVolume.HistoryCapped | app/components/TradeVolume.tsx:69 | at most 30 buckets remain, the most recent, newest last |
| TradeVolume.SameMinuteIncreasing | app/components/TradeVolume.tsx:54-59 | a same-minute update keeps timestamps increasing |
| TradeVolume.NewMinuteIncreasing | app/components/TradeVolume.tsx:60-66 | a later-minute append keeps timestamps increasing |
| TradeVolume.SuffixIncreasing | app/components/TradeVolume.tsx:69 | the kept suffix of an increasing history is increasing |
| TradeVolume.UpdateKeepsIncreasing | app/components/TradeVolume.tsx:51-69 | with a clock that does not go back, timestamps stay strictly increasing and the last is the current minute |
| TradeVolume.ReplayIncreasing | app/components/TradeVolume.tsx:44-69 | over any run of trades with non-decreasing times, timestamps stay strictly increasing |
| TradeVolume.TradeVolumeChart.constructor | app/components/TradeVolume.tsx:44-69 | the history starts empty |
| TradeVolume.TradeVolumeChart.OnTrade | app/components/TradeVolume.tsx:44-69 | the history becomes the updater's result for volume `q*p`, within 30 buckets |
| TradeVolume.AddTrade | app/components/TradeVolume.tsx:51-66 | the bucket update; stated by `SameMinuteAddsToLast` and `NewMinuteAppends` |
| TradeVolume.UpdateHistory | app/components/TradeVolume.tsx:46-70 | the state updater; stated by `HistoryCapped` and `UpdateKeepsIncreasing` |
| VolumePulse.CurrentIndex | app/components/VolumePulse.tsx:31-60 | the index is in 0..2 and names the 20 s slot holding `now mod 60000` |
| VolumePulse.ResetStale | app/components/VolumePulse.tsx:34-38 | each window older than 60000 ms restarts at `{0, now}`; the others are kept |
| VolumePulse.AddTrade | app/components/VolumePulse.tsx:30-48 | there are still exactly three windows |
| VolumePulse.Rotate | app/components/VolumePulse.tsx:55-63 | there are still exactly three windows |
| VolumePulse.AddTradeEffect | app/components/VolumePulse.tsx:34-45 | other windows are reset-or-kept; the current one gains the volume if at most 20000 ms old, else becomes `{volume, now}` |
| VolumePulse.AddTradeFreshens | app/components/VolumePulse.tsx:34-45 | after a trade no window is more than a minute old |
| VolumePulse.RotateEffect | app/components/VolumePulse.tsx:55-63 | only the current window is replaced by `{0, now}` |
| VolumePulse.DisplayRule | app/components/VolumePulse.tsx:85-91 | with max > 0: every bar is at most 100, the largest is 100, and a surge holds iff volume > 0.8·max; otherwise all are 0 and nothing surges |
| VolumePulse.PercentageAtMostHundred | app/components/VolumePulse.tsx:90 | a value at most the maximum has a share of at most 100 |
| VolumePulse.BarWithinMax | app/components/VolumePulse.tsx:90-91 | a volume at most a positive maximum has a bar of at most 100% and surges exactly above 80% of the maximum |
| VolumePulse.FullBar | app/components/VolumePulse.tsx:90 | the largest volume's bar is exactly 100% |
| VolumePulse.Pulse.constructor | app/components/VolumePulse.tsx:19-21 | three empty windows stamped with the mount time |
| VolumePulse.Pulse.OnTrade | app/components/VolumePulse.tsx:28-48 | the windows become the trade updater's result on the old windows |
| VolumePulse.Pulse.OnRotate | app/components/VolumePulse.tsx:55-63 | the windows become the rotation's result |
| VolumePulse.MaxVolume | app/components/VolumePulse.tsx:85 | `Math.max` of the window volumes; stated by `DisplayRule` |
| VolumePulse.Percentage | app/components/VolumePulse.tsx:90 | the bar's share; stated by `DisplayRule`, `BarWithinMax` and `FullBar` |
| VolumePulse.IsSurge | app/components/VolumePulse.tsx:91 | the surge test; stated by `DisplayRule` and `BarWithinMax` |
| Liquidation.Generated | app/components/LiquidationPoints.tsx:37-58 | six points: the i-th long from draws 2i, 2i+1 and the i-th short from draws 6+2i, 7+2i |
| Liquidation.GeneratedSides | app/components/LiquidationPoints.tsx:37-58 | three longs, then three shorts |
| Liquidation.GeneratedRanges | app/components/LiquidationPoints.tsx:31-51 | with draws in [0,1), long prices are in (37000, 39000], short prices in [41000, 43000), and volumes in [0, 1000000) |
| Liquidation.SortedLongsFirst | app/components/LiquidationPoints.tsx:61 | the list is sorted by price, is a permutation of the six points, and every long precedes every short |
| Liquidation.SideTotalsSplit | app/components/LiquidationPoints.tsx:62-64 | the long and short totals add up to the sum of all volumes |
| Liquidation.SideTotalAppend | app/components/LiquidationPoints.tsx:40-52 | a side's total over two lists is the sum of its totals |
| Liquidation.SideTotalOneSide | app/components/LiquidationPoints.tsx:37-58 | on points of one side, that side's total is the whole sum and the other side's is 0 |
| Liquidation.SideTotalOfLongs | app/components/LiquidationPoints.tsx:40-52 | the long total is the first loop's sum, the short total the second's |
| Liquidation.TotalIsSum | app/components/LiquidationPoints.tsx:62-64 | the total is the sum of every volume |
| Liquidation.FetchData | app/components/LiquidationPoints.tsx:30-67 | the summary holds the sorted points, each side's total, and their sum |
| Liquidation.MaxVolume | app/components/LiquidationPoints.tsx:91 | the maximum is at least every volume and is one of them |
| Liquidation.BarsAtMostHundred | app/components/LiquidationPoints.tsx:91-97 | every bar percentage is at most 100 |
| FlowLiquidation.NewPointRanges | flow-dashboard/app/components/LiquidationPoints.tsx:19-23 | with draws in [0,1), the price is in [45000, 46000), the amount in [0, 10), and the point is long iff the third draw > 0.5 |
| FlowLiquidation.WindowShape | flow-dashboard/app/components/LiquidationPoints.tsx:26 | at most 20 points: the last (up to) 19 previous ones in order, then the new point |
| FlowLiquidation.SideTotalsCover | flow-dashboard/app/components/LiquidationPoints.tsx:27-30 | the long and short totals add up to the sum of all amounts |
| FlowLiquidation.SideTotalNonNegative | flow-dashboard/app/components/LiquidationPoints.tsx:27-30 | with no negative amount, no total is negative |
| FlowLiquidation.PercentagesSplit | flow-dashboard/app/components/LiquidationPoints.tsx:42-44 | with a positive total the shares add up to 100 (each in [0,100] if the totals are not negative); otherwise both are 0 |
| FlowLiquidation.RunConsistent | flow-dashboard/app/components/LiquidationPoints.tsx:19-30 | every run of in-range ticks keeps at most 20 points, the totals equal to the per-side folds, and no negative amount |
| FlowLiquidation.InitialConsistent | flow-dashboard/app/components/LiquidationPoints.tsx:12-14 | the initial state is consistent |
| FlowLiquidation.ConsistentDisplay | flow-dashboard/app/components/LiquidationPoints.tsx:27-44 | a consistent state's totals cover the window, and its shares lie in [0,100] and add up to 100 when anything is shown |
| FlowLiquidation.NewPoint | flow-dashboard/app/components/LiquidationPoints.tsx:19-23 | a random point from three draws; stated by `NewPointRanges` |
| FlowLiquidation.Window | flow-dashboard/app/components/LiquidationPoints.tsx:26 | the last 19 points plus the new one; stated by `WindowShape` |
| FlowLiquidation.Tick | flow-dashboard/app/components/LiquidationPoints.tsx:18-34 | one interval tick; stated by `RunConsistent` |
| FlowPulse.NewPulseRanges | flow-dashboard/app/components/VolumePulse.tsx:17-21 | with draws in [0,1), the volume is in [0, 10), and the pulse is a buy iff the second draw > 0.5 |
| FlowPulse.UpdateShape | flow-dashboard/app/components/VolumePulse.tsx:23 | at most 10 pulses: the last (up to) 9 previous ones in order, then the new one |
| FlowPulse.RunBounded | flow-dashboard/app/components/VolumePulse.tsx:17-23 | after any run the list holds at most 10 pulses and ends with the last tick's pulse |
| FlowPulse.BarWidth | flow-dashboard/app/components/VolumePulse.tsx:38 | the width is at most 100 and is either 100 or ten times the volume |
| FlowPulse.BarWidthRule | flow-dashboard/app/components/VolumePulse.tsx:38 | below volume 10 the width is proportional; from 10 on it is 100; a generated pulse's width is in [0, 100) |
| FlowPulse.NewPulse | flow-dashboard/app/components/VolumePulse.tsx:17-21 | a random pulse from two draws; stated by `NewPulseRanges` |
| FlowPulse.UpdatePulses | flow-dashboard/app/components/VolumePulse.tsx:23 | the last 9 pulses plus the new one; stated by `UpdateShape` and `RunBounded` |
| QueryParams.SetThenGet | app/api/binance/route.ts:80-82 | after `set`, `get` of that name returns the new value, and other names are unaffected |
| QueryParams.SearchParams.Set | app/api/binance/route.ts:81 | the entries become the `set` result, and `get` returns the value |
| QueryParams.SearchParams.Get | app/api/binance/route.ts:80 | `get` is none iff no entry has the name, and otherwise the value of the first entry under it |
| QueryParams.Lookup | app/api/crypto/route.ts:81-84 | no value iff no entry has the name; otherwise the value of the first entry under the name |
| Numbers.ParseFloatOfDecimal | backend/services/dataProcessor.js:24-28 | `parseFloat` of a decimal text gives its exact value |
| Numbers.ParseIntOfInt | backend/services/storageService.js:163 | `parseInt` of an integer's text gives that integer |
| Numbers.ParseFloat | backend/services/dataProcessor.js:24-28 | `parseFloat` on decimal text; stated by `ParseFloatOfDecimal` |
| Numbers.ParseInt | backend/services/storageService.js:163 | `parseInt` on integer text; stated by `ParseIntOfInt` |
| Seqs.SortBySorted | app/api/crypto/route.ts:39-40 | the sort's result is sorted by the key and is a permutation of its input |
| Seqs.FilterMembers | backend/services/storageService.js:44-55 | `filter` keeps exactly the elements that pass |
| Seqs.FilterIdempotent | backend/services/storageService.js:44-55 | filtering twice by the same test equals filtering once |
| Seqs.FilterCounts | backend/services/storageService.js:44-55 | `filter` keeps every copy of a passing element and none of a failing one |

## Left out

- `parseFloat` and `parseInt` read a sign, digits and an optional fraction. Leading whitespace is skipped. Exponents, `Infinity` and hexadecimal are not read, and a non-string value gives `NaN`.
- `Divide` gives `NaN` for a zero divisor, where JavaScript gives ±Infinity for a non-zero dividend. This affects the order-book aggregate's ratio, the liquidation ladder's bars and the volume-pulse bars. The contracts state results only for positive divisors.
- Numbers are exact reals, so floating-point rounding is not modelled. Neither is the text of `toFixed`, `toString` or `toLocaleString`. The liquidation ladder sorts by the rounded price text; the model sorts by the exact price.
- URL percent-encoding in `URLSearchParams.toString` is not modelled.
- Where a thrown `TypeError` reaches a response body as its `message`, the model carries a stand-in text: `JsonValue.TypeErrorMessage`, `JsonValue.NotAFunctionMessage`, `JsonValue.NotIterableMessage` and `CryptoRoute.NotIterable`. The engine's own texts, which name the property or value involved, are not modelled.
- Reading a named field of a string gives `undefined` in the model, so `length` is not read. Indexing a string counts Unicode scalar values, where JavaScript counts UTF-16 code units; they differ only for characters outside the Basic Multilingual Plane.
- `Numbers.IsSpace`: `parseFloat` and `parseInt` skip only space, tab, line feed and carriage return in the model. JavaScript also skips vertical tab, form feed, no-break space, U+FEFF, the line and paragraph separators and the other Unicode space separators.
- `Text.Lower`: `toLowerCase` maps only ASCII `A`-`Z`; other letters are left as they are.
- `Processor.ProcessData`: only `k`, `asks` and `bids` may be missing from a stream message. The scalar fields (`T`, `E`, `p`, `q`, `r`, `m` and the fields of `k`) are taken to be present with their wire types; a missing one would put `undefined` or `NaN` in the record. A side of the book that is present but is not an array of pairs is not modelled.
- JavaScript's in-place `sort` is modelled as the pure insertion sort `Seqs.SortBy`. In-place aliasing is not modelled. `TradeVolume.tsx` adds to `lastEntry` and `VolumePulse.tsx` adds to a window's `volume`; both mutate objects of the previous React state, and the model returns new values.
- Network I/O is not modelled: sockets, `fetch`, axios and Express. An upstream outcome is a parameter. Socket open, close, message and error, and timer expiry, are events.
- `Date.now()` is a parameter. The local wall-clock hour and minute of the midnight reset are parameters. `Math.random()` values are given draws.
- `Seqs.SortBy`: the result is stated sorted and a permutation of the input; the order of elements with equal keys, which JavaScript's sort keeps, is not stated.
- `BinanceData.RetryBound`: stated under the assumption that no fetch fails while a retry is waiting. The assumption is needed because the hook's rule does not bound overlapping failures (see Findings).
- `useBinanceData` is not modelled in two respects:
  - React closures that capture a stale `retryCount`;
  - the counter reset on unmount.
- `BinanceService.fetchHistoricalKlines` (an HTTP call) is not modelled. Neither are the Express GET routes in `server.js`.
- app/api/market-data/route.ts calls service methods that the repository does not define, so it is not modelled.
- `app/services/binance.ts` holds thin fetch wrappers and is not modelled.
- UI-only components are not modelled; they only render or hold sample data. This includes how the flow pulse list's opacity is shown.
- The constants of the configuration files are inlined: the symbol, the socket base URL and the retention settings.
- The crypto route's error body omits its `timestamp` field, which comes from the clock.
- The price and volume points of the crypto route are typed pairs rather than JSON.
- The client aggregators take already-processed, typed payloads.

## Findings

| source | as written | input that shows it | evidently intended | confidence | as-written member | corrected member |
|---|---|---|---|---|---|---|
| app/hooks/useBinanceData.ts:101-109 | `onError` schedules a retry whenever `retryCount < 3`, even while an earlier retry is still waiting, because the counter only rises when a timer fires | four fetch failures before the first retry timer fires: four retries are scheduled and `retryCount` ends at 4 | at most `MAX_RETRIES` (3) retries | medium, not executed | BinanceData.OverlappingErrorsExceedLimit | BinanceData.GuardedRetryBound |
