# Market-data aggregator: cache and derivation core

A Dafny model of the caching and aggregation layer of `server.py`, a small Flask back end that serves a futures
table widget from a remote market-data provider. The model covers:

- the process-wide TTL cache (`_cache_get` / `_cache_set`): a class `TtlCache.Cache` whose `entries` field maps a
  key to `(value, expires_at)`, with lazy deletion of an expired entry on read, specified by the pure functions
  `Lookup`, `AfterGet` and `Put`;
- the provider's fixed-point quotation (`units + nano / 10^9`), converted exactly to a `real`;
- Python's `round(x, n)` on exact reals (half-to-even), and the truthiness rule that reports a zero price as absent;
- the candle derivation (by candle count: none, one, two or more) and the order-book derivation (best prices,
  spread, auction midpoint, deviation from the last or close price, lots summed over every level);
- the auction classifier on Moscow time (UTC+3), from a Unix time in seconds down to weekday and minute of day;
- the instrument catalog: every future, then the shares whose ticker is on the allow-list, ignoring case, with
  the name and uid fallbacks, built by the two appending loops of `api_futures`;
- the three fetch paths through the shared cache (catalog, candles, order book), each written as a method that takes
  the shared cache object and specified by a pure step function of the store; the `ids` parameter parser
  (`split(",")`, `strip()`, drop empty); and the row loops of `api_table` and `api_orderbook`.

The provider's answers are inputs: `Upstream<T>` is `Ok(response)` or `Failed(message)`, and a table request
takes one candle answer and one order-book answer per parsed id. The wall clock is an integer parameter `now`
in seconds. The heterogeneous Python cache becomes one store of `Cached` values (catalog, candle row or order-book
snapshot); the invariant `Server.Coherent` says every entry sits under the key of its own kind and instrument,
that no error order book is stored, and that no stored candle row carries an error other than "no data" (the
"no data" row from an answer with zero candles is stored, as in the source); every fetch path preserves it. That a
failed candle call stores nothing at all is stated by `Server.CandleStepFailure` (a failure message could itself
read "no data", which the invariant alone would not tell apart).

Modules: `Wrappers` (Option, Upstream), `Text` (split, strip, join, upper), `Numeric` (round), `Quotations`,
`TtlCache`, `Catalog`, `Candles`, `OrderBooks`, `Auction`, `Server`.

Behaviours of the code that the model keeps, though a reader may not expect them:

- The catalog is written to the cache after every rebuild, so when both provider calls fail an empty list is
  served from the cache for the next 300 seconds (`Server.CatalogStepRule` states this outright).
- The order-book cache key does not include the requested depth, so the table path (depth 1) and the order-book
  path (depth 10) share one entry per instrument; the model has no depth at all (see "Left out").
- A zero or missing open in today's candle is reported as absent, yet the change is still computed against it and
  comes out as -100% (`Candles.ZeroOpenGivesFullDrop`).
- Only `requests.RequestException` is caught on the candle path; the model's inputs are already-decoded responses,
  so the other exceptions cannot arise in it.

## Model

| member | source | states |
|---|---|---|
| TtlCache.Cache.constructor | server.py:23 | The cache starts empty. |
| TtlCache.Lookup | server.py:27-37 | What `_cache_get` returns at `now`: the value exactly while `now` is not past its expiry; its promises are stated by `TtlCache.ReadYourWrite`, `TtlCache.ExpiredIsGone` and `TtlCache.StalenessBound`. |
| TtlCache.AfterGet | server.py:33-36 | The contents after a read: an entry found expired is deleted and nothing else changes; stated by `TtlCache.ExpiredIsGone`, `TtlCache.OtherKeysUnchanged` and `TtlCache.EvictionUnobservable`. |
| TtlCache.Put | server.py:40-43 | The contents after `_cache_set`: `(value, now + ttl)` under the key; stated by `TtlCache.ReadYourWrite` and `TtlCache.OtherKeysUnchanged`. |
| TtlCache.Cache.Get | server.py:27-37 | The read returns the value exactly while `now` has not passed its expiry (`Lookup`), and the entry is deleted when found expired, nothing else changing (`AfterGet`). |
| TtlCache.Cache.Set | server.py:40-43 | The write stores `(value, now + ttl)` under the key and changes no other key (`Put`). |
| TtlCache.ReadYourWrite | server.py:27-43 | A value written at `t` is read back at every instant up to and including `t + ttl`, and that read deletes nothing. |
| TtlCache.ExpiredIsGone | server.py:33-36 | After `t + ttl` the read returns nothing, deletes the key, and no later read brings the value back. |
| TtlCache.StalenessBound | server.py:33-37 | A written value is served if and only if the read is no later than `t + ttl`. |
| TtlCache.OtherKeysUnchanged | server.py:27-43 | Reads and writes of one key leave the presence, the stored pair and the visible value of every other key unchanged. |
| TtlCache.EvictionUnobservable | server.py:34-36 | Lazy deletion is invisible: every read at `now` or later sees the same before and after a read at `now`. |
| Numeric.RoundHalfEven | server.py:214 | The integer chosen by `round` is within one half of its argument, and a tie goes to the even neighbour. |
| Numeric.Round | server.py:214-215 | `round(x, digits)` as the nearest multiple of 10^-digits, ties to even (through `Numeric.RoundHalfEven`); its error bound is `Numeric.RoundError`. |
| Numeric.RoundError | server.py:214-215 | `round(x, d)` differs from `x` by at most half a unit in the d-th decimal place. |
| Numeric.RoundZero | server.py:214-215 | Zero rounds to zero, and a value that rounds to zero lies within half a unit of zero. |
| Quotations.ToReal | server.py:93-99 | The converted price times 10^9 is exactly the quotation's nano count `units * 10^9 + nano`, a missing quotation or field counting as 0. |
| Quotations.MissingQuotationIsZero | server.py:95-98 | A missing quotation, one with no fields, and a missing `units` or `nano` each read as 0 for that part. |
| Quotations.ZeroIffNoNanos | server.py:95-99 | A quotation reads as zero (so as absent to a truthiness test) exactly when its nano count is zero. |
| Quotations.QuotationParts | server.py:99 | With `0 <= nano < 10^9`, `units` is the integer part of the price and `nano` its fraction in nanos. |
| Quotations.Reported | server.py:214-215 | `round(p, 4) if p else None` is absent exactly for a zero price, and otherwise within rounding of the price. |
| Candles.ChangePct | server.py:224-226 | The percent change exists exactly when yesterday's close is non-zero, and is within rounding of `(open - close) / close * 100`. |
| Candles.DeriveCandleRow | server.py:195-233 | The row names its instrument, carries an error exactly when there are no candles and that error is "no data", and has a change only with two or more candles and a non-zero prior close. |
| Candles.FailedCandleRow | server.py:239-246 | The error row of a failed candle call: id, name, the message, no prices; stated by `Server.CandleStepFailure`. |
| Candles.NoCandles | server.py:197-205 | No candles: close, open and change absent, error "no data". |
| Candles.SingleCandle | server.py:206-217 | One candle: open and close are that candle's reported prices, no change, no error. |
| Candles.LastTwoCandles | server.py:218-233 | Two or more candles: only the last two matter; close is yesterday's close, open is today's open, and the change exists iff yesterday's close is non-zero, within rounding of the exact percentage. |
| Candles.ZeroPriceIsAbsent | server.py:214-215 | Close or open is absent exactly when the quotation it comes from is zero, for one candle and for two or more (server.py:230-231). |
| Candles.ZeroOpenGivesFullDrop | server.py:222-231 | With yesterday's close non-zero and today's open zero or missing, the open is reported absent while the change is exactly -100%. |
| Candles.FullDrop | server.py:225-226 | From a non-zero close to an open of zero the rounded change is exactly -100%. |
| Candles.CandleExamples | server.py:206-233 | Worked cases: one candle 100/102; close 100 then open 105 gives +5.0%; a zero close gives no change. |
| OrderBooks.TotalLots | server.py:277 | `orderbook.get("total_lots")` is present exactly for a snapshot, where it is the snapshot's total lots, and absent for an error row. |
| OrderBooks.SumLotsAppend | server.py:345-346 | The lot total is additive over any split of the levels, so every level counts, not only the top one. |
| OrderBooks.SumLotsCoversEveryLevel | server.py:345-346 | With non-negative quantities the side total is at least the quantity of each of its levels. |
| OrderBooks.SumLotsNonNegative | server.py:345-346 | With non-negative quantities the side total is non-negative. |
| OrderBooks.SumLots | server.py:345-346 | `sum(int(l.get("quantity", 0)) for l in levels)`, a missing quantity counting as 0; stated by `OrderBooks.SumLotsAppend`, `OrderBooks.SumLotsCoversEveryLevel` and `OrderBooks.LotTotals`. |
| OrderBooks.BestPrice | server.py:341-342 | The price of the first level, absent for an empty side; stated by `OrderBooks.BestPrices`. |
| OrderBooks.ReferencePrice | server.py:359 | `last_price or close_price`: the last price unless it is zero, then the close; stated by `OrderBooks.DeviationRule`. |
| OrderBooks.DeriveBook | server.py:338-375 | A provider answer always gives a snapshot for the requested id whose total lots are bid lots plus ask lots. |
| OrderBooks.BestPrices | server.py:341-342 | Best bid and ask come from the first level of each side, absent when the side is empty or its top price is zero (server.py:365-366), and within rounding otherwise. |
| OrderBooks.SpreadAndMidpoint | server.py:349-351 | Spread and auction price exist together, exactly when both best prices are non-zero; they are within rounding of ask minus bid and of the midpoint (server.py:367). |
| OrderBooks.MidpointBetweenBestPrices | server.py:349-351 | In an uncrossed book the auction price lies between best bid and best ask, up to rounding. |
| OrderBooks.DeviationRule | server.py:357-361 | The reference is the last price unless zero, else the close price; the deviation exists iff auction price and reference are both non-zero, and is within rounding of the exact percentage. |
| OrderBooks.ReportedReferencePrices | server.py:354-370 | Last and close prices are the rounded quotations, each absent exactly when its quotation is zero. |
| OrderBooks.LotTotals | server.py:344-346 | Bid and ask lots are the sums over all levels of each side, and total lots the sum over both sides (server.py:372-374). |
| OrderBooks.NoAsks | server.py:338-374 | With no asks: no best ask, spread, auction price or deviation, zero ask lots, total equal to bid lots. |
| OrderBooks.BookExample | server.py:338-375 | Worked case: bid 99, ask 101, last 98 give spread 2, auction 100, deviation 2.04%, 7 lots. |
| Auction.MoscowTime | server.py:288-297 | The shifted clock gives a weekday in 0..6 and a minute of day in 0..1439. |
| Auction.Classify | server.py:299-318 | Opening window by weekday, closing window every day, both half-open, opening first; stated by `Auction.AuctionWindows` and `Auction.AuctionExamples`. |
| Auction.ClassifyAt | server.py:286-318 | `_is_auction_time` at a Unix time: `Classify` of the Moscow weekday and minute; stated by `Auction.WeeklyPeriod` and `Auction.MoscowTimeOf`. |
| Auction.AuctionWindows | server.py:299-316 | Opening is [530, 540) Monday-Friday and [590, 600) at weekends, closing [1120, 1130) daily; `is_auction` iff either; the type is opening whenever opening holds, closing iff closing holds, and present iff an auction. |
| Auction.AuctionExamples | server.py:299-316 | Worked cases: Tuesday 08:55 opening, Tuesday 09:05 none, 18:45 any day closing, Saturday 09:55 opening. |
| Auction.WeeklyPeriod | server.py:289-297 | The Moscow clock, and so the classification, repeats every 7 days. |
| Auction.NextDay | server.py:289-297 | One day later the minute of day is unchanged and the weekday advances by one, Sunday wrapping to Monday. |
| Auction.MoscowTimeOf | server.py:288-297 | Every instant that is Moscow day `d`, minute `m` reads back as weekday `(d + 3) % 7` and minute of day `m`: the shift is exactly three hours. |
| Auction.EpochIsThursday | server.py:289-295 | Unix time 0 is Thursday 03:00 in Moscow. |
| Catalog.BuildCatalog | server.py:128-170 | The appending loops produce exactly `CatalogItems`: futures items, then allowed shares items, a failed call adding nothing. |
| Catalog.ToInstrument | server.py:137-143 | The item appended for one record, with the name and uid fallbacks; stated by `Catalog.Fallbacks`. |
| Catalog.CatalogItems | server.py:128-170 | Every futures item, then the allowed shares items, a failed call contributing nothing; `Catalog.BuildCatalog` is proved equal to it and `Catalog.CatalogOrder`, `Catalog.EveryFutureKept` and `Catalog.SharesFiltered` state its content. |
| Catalog.AppendFutures | server.py:136-143 | The futures loop appends one item per record, in order. |
| Catalog.AppendAllowedShares | server.py:154-167 | The shares loop appends an item exactly for each record whose ticker is allowed, in order. |
| Catalog.EveryFutureKept | server.py:136-143 | Every future is kept, in order, as a futures item. |
| Catalog.SharesFiltered | server.py:155-166 | An item is in the shares list iff it comes from a record whose upper-cased ticker is in the upper-cased allow-list. |
| Catalog.CatalogOrder | server.py:128-170 | The list is exactly the futures items followed by the shares items; a failed call contributes nothing and leaves the other call's items intact. |
| Catalog.AllowedItemsAreShares | server.py:160-166 | Every shares item has type shares. |
| Catalog.Fallbacks | server.py:138-141 | The name falls back to the ticker when missing or empty; the uid falls back to the figi (also server.py:163-164). |
| Catalog.SpotMatchIgnoresCase | server.py:155-159 | "sber", "Sber" and "SBER" are kept, "SBERP" is not. |
| Text.StripLeft | server.py:260 | `lstrip` returns a suffix of its input that does not start with whitespace. |
| Text.StripRight | server.py:260 | `rstrip` returns a prefix of its input that does not end with whitespace. |
| Text.StripLeftRemovesSpaces | server.py:260 | What `lstrip` removes is whitespace only. |
| Text.StripRightRemovesSpaces | server.py:260 | What `rstrip` removes is whitespace only. |
| Text.StripLeftOfSpaces | server.py:260 | A string of whitespace only strips to nothing. |
| Text.StripSlice | server.py:260 | `strip` returns a contiguous slice of its input. |
| Text.StripTrimmed | server.py:260 | The stripped string has no whitespace at either end, and a string without it is left unchanged. |
| Text.Strip | server.py:260 | `str.strip()` as `StripLeft` after `StripRight`; stated by `Text.StripSlice`, `Text.StripTrimmed` and `Text.StripKeepsNoComma`. |
| Text.StripKeepsNoComma | server.py:260 | Stripping a comma-free string gives a comma-free string. |
| Text.Split | server.py:260 | `split(",")` always gives at least one piece. |
| Text.SplitPiecesHaveNoComma | server.py:260 | No piece of a split holds a comma. |
| Text.JoinSplit | server.py:260 | Joining the pieces with commas gives the input back. |
| Text.Join | server.py:260 | `",".join(parts)`, the inverse of `split(",")` that the parsing round trips are stated with; stated by `Text.JoinSplit` and `Text.SplitJoin`. |
| Text.SplitNoComma | server.py:260 | A comma-free string splits to itself alone. |
| Text.SplitConcat | server.py:260 | Splitting distributes over a separating comma. |
| Text.SplitJoin | server.py:260 | Comma-free pieces joined with commas split back to the same pieces. |
| Text.UpperChar | server.py:155 | `upper` maps each of `a`-`z` to its own capital in `A`-`Z` and leaves every other character alone. |
| Text.Upper | server.py:159 | `upper` keeps the length and maps each character. |
| Text.UpperAll | server.py:155 | The upper-cased allow-list has one entry per ticker, each upper-cased. |
| Text.UpperIdempotent | server.py:155-159 | Upper-casing twice is upper-casing once. |
| Server.KeysNeverCollide | server.py:120 | `"instruments_list"`, `"candles_"+a` and `"orderbook_"+b` never collide for any ids, and within a family the key determines the id (server.py:179, 323). |
| Server.LiveEntriesMatchKeys | server.py:179-182 | In a coherent store a live entry under a candle, order-book or catalog key is of that kind and for that instrument (server.py:323-326). |
| Server.CatalogStepRule | server.py:119-174 | A live catalog is served unchanged; otherwise the list is rebuilt and served for the next 300 seconds, even the empty list left by two failed calls; no other key changes and the store stays coherent. |
| Server.CandleStepHit | server.py:179-182 | A live candle row is returned as cached, for the requested id, and the store is unchanged. |
| Server.CandleStepFresh | server.py:195-236 | On a miss the derived row is returned and served from the cache for the next 10 seconds. |
| Server.CandleStepFailure | server.py:237-246 | A failed call returns the error row, stores nothing, and every later read sees the store as before. |
| Server.CandleStepLocal | server.py:177-246 | A candle fetch keeps the store coherent, answers for its own id and touches no other key. |
| Server.BookStepHit | server.py:323-326 | A live snapshot is returned as cached, for the requested id, and the store is unchanged. |
| Server.BookStepFresh | server.py:338-380 | On a miss the derived snapshot is returned and served from the cache for the next 5 seconds. |
| Server.BookStepFailure | server.py:381-386 | A failed call returns an error row with no lots, stores nothing, and every later read sees the store as before. |
| Server.BookStepLocal | server.py:321-386 | An order-book fetch keeps the store coherent, answers for its own id, gives a snapshot whenever the call succeeds, and touches no other key. |
| Server.CatalogStep | server.py:119-174 | The catalog path as a function of the store: serve a live list, or rebuild and store it for 300 s; stated by `Server.CatalogStepRule`. |
| Server.CandleStep | server.py:177-246 | The candle path as a function of the store: serve a live row, or derive and store it for 10 s, or return the error row and store nothing; stated by `Server.CandleStepHit`, `Server.CandleStepFresh`, `Server.CandleStepFailure` and `Server.CandleStepLocal`. |
| Server.BookStep | server.py:321-386 | The order-book path as a function of the store: serve a live snapshot, or derive and store it for 5 s, or return the error row and store nothing; stated by `Server.BookStepHit`, `Server.BookStepFresh`, `Server.BookStepFailure` and `Server.BookStepLocal`. |
| Server.RowStep | server.py:271-278 | One table row: the candle path, then the order-book path, with the book's `total_lots` added to the row; stated by `Server.RowStepShape` and `Server.RowStepLots`. |
| Server.TableSpec | server.py:269-283 | The table rows, one `RowStep` per id in order, threading the store; stated by `Server.TableShape`. |
| Server.BookRowsSpec | server.py:405-409 | The order-book rows, one `BookStep` per id in order, threading the store; stated by `Server.BookRowsShape`. |
| Server.RowStepShape | server.py:271-278 | One pass of the table loop keeps the store coherent, gives a row for its id, and has lots when the order-book call succeeded. |
| Server.RowStepLots | server.py:276-277 | A row's lots are absent iff the order-book call failed and no live snapshot was cached; a fresh snapshot gives bid plus ask lots. |
| Server.TableShape | server.py:269-283 | The table has one row per id, in order, each for its own id, with lots wherever the order-book call succeeded; the store stays coherent. |
| Server.BookRowsShape | server.py:405-409 | The order-book endpoint has one row per id, in order, each for its own id, a snapshot wherever the call succeeded; the store stays coherent. |
| Server.CleanTokensAppend | server.py:260 | Cleaning tokens distributes over concatenation, so order is kept. |
| Server.CleanTokensAreClean | server.py:260 | Every kept token, once stripped, is non-empty, comma-free and trimmed. |
| Server.CleanTokens | server.py:260 | `[x.strip() for x in tokens if x.strip()]`; stated by `Server.CleanTokensAppend` and `Server.CleanTokensAreClean`. |
| Server.ParseIds | server.py:260 | The `ids` parser, split on commas then clean; stated by `Server.ParsedIdsAreClean`, `Server.ParseBlank`, `Server.ParseIdsConcat`, `Server.ParseSingleId` and `Server.ParseJoinedIds`. |
| Server.ParsedIdsAreClean | server.py:260 | Every parsed id is non-empty, comma-free and has no surrounding whitespace. |
| Server.ParseBlank | server.py:257-260 | An empty or all-whitespace parameter gives no ids. |
| Server.ParseIdsConcat | server.py:260 | The ids before a comma come before the ids after it. |
| Server.ParseSingleId | server.py:260 | A clean id on its own parses to itself. |
| Server.ParseJoinedIds | server.py:260 | Clean ids joined with commas parse back to the same ids in the same order. |
| Server.ListInstruments | server.py:119-174 | The catalog path's result, cache flag and new store are those of `CatalogStep`. |
| Server.FetchCandles | server.py:177-246 | The candle path's row, cache flag and new store are those of `CandleStep`. |
| Server.FetchOrderBook | server.py:321-386 | The order-book path's snapshot, cache flag and new store are those of `BookStep`. |
| Server.AssembleTable | server.py:269-283 | The table loop's rows and new store are those of `TableSpec`, one `RowStep` per id in order. |
| Server.Table | server.py:257-283 | The table endpoint assembles the rows for the parsed ids. |
| Server.FetchBookRows | server.py:405-409 | The order-book loop's rows and new store are those of `BookRowsSpec`. |
| Server.OrderBookRows | server.py:396-412 | The order-book endpoint fetches the rows for the parsed ids and reports the auction state at `now`. |

## Left out

- HTTP: the Flask routes, `jsonify`, static files and `main`; the 503 answer when no access token is configured.
- Network calls, their timeouts and `raise_for_status`: each provider answer is an `Upstream` input.
- Environment and configuration loading (`_load_env_from_file`, `_get_api_url`, `_get_headers`).
- The cache lock: every cache call is atomic and calls are sequential.
- Logging, and the `strftime` texts (`moscow_time`, the candle window bounds).
- Clock resolution: the clock is whole seconds, where `time.time()` is fractional. With both readings floored, a
  write at 100.7 s with a 5-second TTL read at 105.9 s is a hit in the model (100 + 5 >= 105) but a miss in the
  source (105.7 < 105.9); the model does not capture sub-second expiry.
- Clock readings: a whole request is modelled as a single instant `now`, used for every cache read and write of
  every id and for the auction classification. The source reads the clock at each cache call and for the auction
  state after the loop, with upstream calls of up to 30 s in between. The model therefore does not capture an entry
  (such as a 5-second order-book snapshot, or one stored for an earlier duplicate id) that expires part-way through
  a request, nor an auction state that differs from the one at the start of the request.
- Binary floating point: prices and `nano / 1e9` are exact reals, and `round` is exact half-to-even rounding.
- JSON decoding: quotation parts and quantities arrive as integers; `int()` of a malformed string, which would
  raise outside the candle path's `RequestException` handler, is not modelled, nor is a record that raises half-way
  through a catalog loop.
- Text.UpperChar: upper-cases ASCII letters only, not the full Unicode case mapping of `str.upper`.
- The order-book `depth` parameter: the provider answer is an input, so the depth it was asked for is not modelled.
- Aliasing at server.py:277: the source writes `total_lots` into the dict it got from the candle path, which is the
  cached dict itself both on a cache hit and after every successful fresh fetch (server.py:235-236). The model has
  value semantics and puts the lots into a separate `TableRow`, so it does not capture the shared update: with ids
  "A,A", the source's two rows are one dict and both show the second pass's `total_lots` (for example the lots of a
  second, successful order-book call where the first failed), while the model's first row keeps its own value.
- Entries of the wrong kind: the step functions treat a live entry of another kind under a key as a miss; in a
  coherent store no such entry exists (`Server.LiveEntriesMatchKeys`).
