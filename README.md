# Binance P2P listing analysis, modelled in Dafny

The project models the price arithmetic and record shaping of a bot that
watches USDT listings on the Binance P2P market.

- **Summariser.** `core/analyzer.py` reduces the buy and sell listings of a
  pair to one summary row. The row holds the simple and volume-weighted
  means, the spread percentage, the total exposed volume, the row count and
  the top-of-book fields.
- **Spread calculator.** `core/processor.py` is a smaller variant. It gives
  the side means, the spread and the side counts.
- **Listing normaliser.** `adapters/binance_p2p.py` has `simplify`, which
  turns raw endpoint records into flat listings and skips any record that
  fails to parse. `get_ads` applies it to the BUY side and then the SELL
  side.
- **Remittance notifier.** `p2p_info.py` builds three margin-scaled COP/VES
  rates from the 5th COP buy listing and the first VES sell listing. It
  sends them only in the hours 6, 10, 14 and 18.
- **CSV sinks.** `core/storage.py` writes one row per raw listing, and one
  row per snapshot. In both cases the header is written only when the file
  is empty.

The modules follow the program:

- `values.dfy` (`PyValue`): decoded JSON values and the Python exceptions
  the code can raise. Exceptions are modelled as `Result`: `Err(KeyError)`,
  `Err(TypeError)`, `Err(ValueError)`, `Err(AttributeError)`,
  `Err(IndexError)` and `Err(ZeroDivisionError)`. The module also holds the
  built-ins the code uses on loosely keyed records: `v[key]`, `v.get`,
  `float()`, slicing and `str.join`.
- `stats.dfy` (`Stats`): sums, means, weighted means, extremes, population
  variance and the spread percentage, with their bounds.
- `analyzer.dfy`, `processor.dfy`, `binance_p2p.dfy`, `p2p_info.dfy` and
  `storage.dfy`: one module per source file.

Arithmetic is exact over `real`. A `None` return is `Ok(None)`.

Each analysis is modelled on its own input shape, and the stages are not
composed:

- `simplify` emits the keys `max` and `nick`;
- the summariser reads `dynamicMaxSingleTransAmount` and `nickName` from its
  listings.

The two shapes do not fit together, so `Analyzer.AnalyzeAds` takes raw
records that carry those keys.

Where the source mutates state, the model does too:

- **`simplify`** is a `while` loop that builds the list (`BinanceP2P.Simplify`).
  It is proved equal to the specification function `Kept`.
- **The CSV file** is a `CsvFile` object holding a sequence of lines.
  `csv.DictWriter` is a class whose `WriteHeader` and `WriteRow` append to
  that file.
- **`save_ads_raw`** is a loop of `WriteRow` calls. It is proved to leave the
  file equal to the header check followed by `WrittenLines`, the lines
  specified listing by listing.

## Model

| member | source | states |
|---|---|---|
| PyValue.Subscript | core/analyzer.py:10 | `v[key]` answers exactly for a dictionary holding the key; a missing key raises `KeyError(key)` |
| PyValue.Get | adapters/binance_p2p.py:49-56 | `v.get(key, default)` succeeds exactly on dictionaries, giving the entry or the default; anything else raises `AttributeError` (the same `.get` is used at core/storage.py:38-46 through `Storage.EntriesOf` and `Storage.Nested`) |
| PyValue.Index | p2p_info.py:54-55 | `xs[i]` succeeds exactly when `i < len(xs)`, otherwise `IndexError` |
| PyValue.ToFloat | core/analyzer.py:10 | `float(v)` succeeds exactly on numbers, booleans and decimal strings; an unparseable string raises `ValueError`; `None`, lists and dicts raise `TypeError` |
| PyValue.ParseUnsigned | core/analyzer.py:10 | an unsigned decimal literal reads as a non-negative number |
| PyValue.ParseDigits | core/analyzer.py:10 | a plain digit string reads as the integer it spells |
| PyValue.ParseNegative | core/analyzer.py:10 | a leading minus negates the value read |
| PyValue.FloatColumn | core/analyzer.py:10-11 | the comprehension `[float(ad[key]) for ad in ads]` succeeds exactly when every element converts; it then has one value per listing, in order; on failure, the error is that of the first failing element |
| PyValue.Prefix | core/storage.py:47 | `s[:n]` is a prefix of `s` of length at most `n`, and is the whole of `s` when it is short enough |
| PyValue.Join | core/storage.py:46 | `",".join(names)`; no contract of its own: `PyValue.SplitJoin` proves that separator-free names join and split back, and `Storage.PaymentMethodsJoin` that the payment-method cell is this join |
| PyValue.Split | core/storage.py:46 | splitting always yields at least one part |
| PyValue.SplitJoin | core/storage.py:46 | names without the separator, once joined, split back into the same names |
| Stats.Min | core/analyzer.py:13-14 | the minimum is at most every element and is one of them |
| Stats.Max | core/analyzer.py:13-14 | the maximum is at least every element and is one of them |
| Stats.Mean | core/analyzer.py:13-14 | `np.mean`, the sum over the count; no contract of its own: `Stats.MeanBounds`, `Stats.MeanConstant` and `Analyzer.AnalyzeAdsPrices` carry its properties |
| Stats.WeightedMean | core/analyzer.py:21-22 | `np.average` with weights, the weighted sum over the weight sum; no contract of its own: `Stats.WeightedMeanBounds` and `Stats.WeightedMeanEqualWeights` carry its properties |
| Stats.SpreadPct | core/analyzer.py:15 | `(avg_sell - avg_buy) / avg_buy * 100`; no contract of its own: `Stats.SpreadSign` proves its sign, `Analyzer.NumpySpread` and `Processor.FloatSpread` its zero-divisor cases |
| Stats.SumAppend | core/analyzer.py:24 | the sum of a concatenation is the sum of the sums |
| Stats.MeanBounds | core/analyzer.py:13-14 | a mean lies between the minimum and the maximum |
| Stats.WeightedMeanBounds | core/analyzer.py:21-22 | with non-negative weights of non-zero sum, the weighted mean lies between the minimum and the maximum price |
| Stats.WeightedMeanEqualWeights | core/analyzer.py:21-22 | equal non-zero weights make the weighted mean the simple mean |
| Stats.MeanConstant | core/processor.py:13-14 | the mean of equal values is that value |
| Stats.SquaredDeviation | core/analyzer.py:25 | the sum of squared deviations is non-negative |
| Stats.PopVariance | core/analyzer.py:25 | the population variance is non-negative |
| Stats.VarianceConstant | core/analyzer.py:25 | equal values have zero variance |
| Stats.SpreadSign | core/analyzer.py:15 | for a positive buy mean, the spread is positive, zero or negative exactly as `avg_sell` is above, equal to or below `avg_buy` |
| Stats.MidpointBounds | core/analyzer.py:34-35 | the midpoint of two values in a range stays in the range |
| Analyzer.Average | core/analyzer.py:21-22 | `np.average` raises `ZeroDivisionError` exactly when the weights sum to zero |

| Analyzer.NumpySpread | core/analyzer.py:15 | the numpy spread is non-finite exactly when the buy mean is zero |
| Analyzer.Take3 | core/analyzer.py:42 | `xs[:3]` is a prefix of length `min(3, len(xs))` |
| Analyzer.AnalyzeAds | core/analyzer.py:5-46 | `analyze_ads` of the summariser; no contract of its own: `Analyzer.AnalyzeAdsNone`, `Analyzer.AnalyzeAdsOutcome`, `Analyzer.AnalyzeAdsFields`, `Analyzer.AnalyzeAdsPrices`, `Analyzer.AnalyzeAdsVolumes` and the two equal-value lemmas carry its properties |
| Analyzer.Summarise | core/analyzer.py:13-45 | the summary row of the parsed columns and the two weighted means; no contract of its own: `Analyzer.SummariseEqualPrices`, `Analyzer.SummariseVolumes` and `Analyzer.SummariseEqualVolumes` carry its properties |
| Analyzer.AnalyzeAdsNone | core/analyzer.py:7-8 | the result is `None` exactly when one side is empty |
| Analyzer.AnalyzeAdsOutcome | core/analyzer.py:10-41 | with both sides present, a summary is produced exactly when every price and volume parses, both volume sums are non-zero and the first sell listing has `nickName`; a failing buy price raises its own error; a zero buy-volume sum raises `ZeroDivisionError` |
| Analyzer.AnalyzeAdsFields | core/analyzer.py:27-44 | the pair is passed through; `rows_fetched` is `len(buy_ads) + len(sell_ads)`; top1 price, volume and nick come from `sell_ads[0]`; `top3_prices` are the first at most 3 sell prices in order; both arbitrage estimates are 0 |
| Analyzer.AnalyzeAdsPrices | core/analyzer.py:13-15 | each side mean lies within its side's price range; `avg_price_simple` is their midpoint and lies within the range of all prices; the spread is non-finite exactly for a zero buy mean and otherwise has the sign of `avg_sell - avg_buy` |
| Analyzer.AnalyzeAdsEqualPrices | core/analyzer.py:13-15 | equal non-zero prices give a zero spread, `avg_price_simple` equal to that price and zero variance |
| Analyzer.AnalyzeAdsVolumes | core/analyzer.py:18-24 | `total_exposed_volume` is the sum of all buy and sell volumes; with non-negative volumes, `avg_price_weighted` lies within the range of all prices |
| Analyzer.AnalyzeAdsEqualVolumes | core/analyzer.py:18-22 | equal volumes on each side make `avg_price_weighted` equal `avg_price_simple` |
| Processor.FloatSpread | core/processor.py:15 | the float spread raises `ZeroDivisionError` exactly when the buy mean is zero |
| Processor.AnalyzeAds | core/processor.py:5-24 | `analyze_ads` of the spread calculator; no contract of its own: `Processor.AnalyzeAdsNone`, `Processor.AnalyzeAdsOutcome`, `Processor.AnalyzeAdsResult` and `Processor.AnalyzeAdsEqualPrices` carry its properties |
| Processor.Calculate | core/processor.py:13-24 | the means, spread and counts of parsed prices; no contract of its own: `Processor.CalculateResult` carries its properties |
| Processor.AnalyzeAdsNone | core/processor.py:7-8 | the result is `None` exactly when one side is empty |
| Processor.AnalyzeAdsOutcome | core/processor.py:10-15 | with both sides parsed, a result is produced exactly when the buy mean is non-zero; a zero buy mean raises `ZeroDivisionError` |
| Processor.AnalyzeAdsResult | core/processor.py:13-23 | the pair is passed through; the counts are the list lengths; the means are sum over count and lie in their side's price range; for a positive buy mean, the spread has the sign of `avg_sell - avg_buy` |
| Processor.CalculateResult | core/processor.py:13-15 | the result fields are the two means, their spread and the counts, with the same bounds and sign |
| Processor.AnalyzeAdsEqualPrices | core/processor.py:13-15 | when all prices equal one non-zero value, the result has that value for both means and a zero spread |
| BinanceP2P.Kept | adapters/binance_p2p.py:44-60 | `simplify` never returns more listings than it receives |
| BinanceP2P.SimplifyOne | adapters/binance_p2p.py:47-57 | the `try` body for one record; no contract of its own: `BinanceP2P.SimplifyOneSpec` states when it succeeds and what it returns |
| BinanceP2P.Simplify | adapters/binance_p2p.py:44-60 | the loop returns exactly the listings of the records that parse |
| BinanceP2P.GetAds | adapters/binance_p2p.py:39-66 | the BUY result comes first and the SELL result second, each simplified independently; an empty (failed) fetch gives an empty side |
| BinanceP2P.SimplifyOneSpec | adapters/binance_p2p.py:48-56 | a record is kept exactly when it parses; `price`, `min` and `max` come from `price`, `minSingleTransAmount` and `dynamicMaxSingleTransAmount`; an absent advertiser gives "N/A", 0 and "0%"; a present advertiser gives its entries or those defaults |
| BinanceP2P.MalformedDropped | adapters/binance_p2p.py:48-58 | a record missing `adv`, or whose price, minimum or maximum is missing or unparseable, is dropped |
| BinanceP2P.KeptAppend | adapters/binance_p2p.py:46-60 | simplifying a concatenation simplifies each part |
| BinanceP2P.SkipDoesNotAbort | adapters/binance_p2p.py:47-59 | a malformed record does not stop the records after it from being simplified |
| BinanceP2P.KeptOrder | adapters/binance_p2p.py:46-50 | the output is the subsequence of parsing records, at increasing input positions; a position is listed exactly when its record parses |
| BinanceP2P.KeptAll | adapters/binance_p2p.py:46-60 | when every record parses, nothing is dropped |
| P2PInfo.BuyCopUsdtIndexError | p2p_info.py:54-55 | fewer than 5 buy listings raise `IndexError`; a quote needs at least 5 buy listings and 1 sell listing |
| P2PInfo.BuyCopUsdt | p2p_info.py:54-58 | `buy_copusdt` on the two fetched lists; no contract of its own: `P2PInfo.BuyCopUsdtIndexError`, `P2PInfo.BuyCopUsdtRates`, `P2PInfo.BuyCopUsdtZeroPrice`, `P2PInfo.RatesIncreasing` and `P2PInfo.RateRatioFixed` carry its properties |
| P2PInfo.ShouldSend | p2p_info.py:74-82 | the hour test; no contract of its own: `P2PInfo.ShouldSendHours` characterises it |
| P2PInfo.Cycle | p2p_info.py:82-84 | one pass of the scheduling loop; no contract of its own: `P2PInfo.CycleSends` carries its properties |
| P2PInfo.BuyCopUsdtRates | p2p_info.py:54-58 | a quote uses the 5th buy price and the first sell price; each rate is `cop/ves` times 1.05, 1.075 and 1.10 |
| P2PInfo.BuyCopUsdtZeroPrice | p2p_info.py:56 | a zero VES price raises `ZeroDivisionError` |
| P2PInfo.RatesIncreasing | p2p_info.py:56-58 | the rates increase with the margin exactly when the first is positive, which holds for positive prices |
| P2PInfo.RateRatioFixed | p2p_info.py:56-58 | for a non-zero COP price, `tasa3 / tasa1` is `1.10 / 1.05` |
| P2PInfo.ShouldSendHours | p2p_info.py:74-82 | the send hours are exactly the hours from 6 to 18 that leave 2 modulo 4 |
| P2PInfo.CycleSends | p2p_info.py:82-84 | a message is produced exactly in a scheduled hour whose quote can be computed, and it is that quote |
| Storage.Cells | core/storage.py:33 | a row's cells are one per field, in field order, each the row's value for that field or "" when absent |
| Storage.RowCells | core/storage.py:33 | `writerow` succeeds exactly when every key is a field, otherwise `ValueError`; it then gives the row's cells |
| Storage.CsvFile.constructor | core/storage.py:26 | an opened file holds its existing lines |
| Storage.DictWriter.constructor | core/storage.py:27 | the writer is bound to the file and the field names |
| Storage.DictWriter.WriteHeader | core/storage.py:29 | appends the header line and nothing else |
| Storage.DictWriter.WriteRow | core/storage.py:33 | appends the row's line when its keys are fields, and otherwise raises `ValueError` and appends nothing |
| Storage.Opened | core/storage.py:26-29 | after the `f.tell() == 0` check, an empty file holds just the header and a non-empty one is unchanged |
| Storage.MethodNames | core/storage.py:46 | the names are read exactly when every trade method is a dictionary whose name is a string; there is one name per method, in order, and "" for a missing name |
| Storage.Nested | core/storage.py:38-45 | `ad.get(key, {}).get(field)` is `None` when the sub-map is absent |
| Storage.EntriesOf | core/storage.py:38 | `.get` on anything but a dictionary raises `AttributeError` |
| Storage.PaymentMethods | core/storage.py:46 | the payment-method cell; no contract of its own: `Storage.PaymentMethodsJoin` and `Storage.MethodNames` carry its properties |
| Storage.AdRow | core/storage.py:33-48 | the row dictionary built for one listing; no contract of its own: `Storage.AdRowOutcome`, `Storage.AdRowFields` and `Storage.AdRowWritten` carry its properties |
| Storage.WrittenLines | core/storage.py:31-50 | the loop writes at most one line per listing |
| Storage.WriteRows | core/storage.py:31-50 | the loop appends to the file exactly the lines of the listings whose rows are built, in input order |
| Storage.SaveAdsRaw | core/storage.py:11-50 | the file becomes the header check followed by one line for each listing whose row is built, in input order |
| Storage.SaveSnapshotSummary | core/storage.py:54-75 | the file becomes the header check followed by the summary's line; it raises exactly when a key is not a field |
| Storage.AppendKeepsHeaderOnce | core/storage.py:26-29 | appending rows after the header check keeps a single header at the top and leaves the existing lines unchanged in front |
| Storage.WrittenLinesAreRows | core/storage.py:31-48 | the listing loop writes only rows |
| Storage.SaveAdsRawKeepsHeaderOnce | core/storage.py:26-48 | saving raw listings keeps the header-once shape of the file |
| Storage.AdRowOutcome | core/storage.py:33-48 | a row is built exactly when the listing is a dictionary, its `adv` and `advertiser` entries are absent or dictionaries, and its trade methods give a payment-method text |
| Storage.AdRowFields | core/storage.py:34-47 | a built row has exactly the 14 fields; it carries the given timestamp, exchange, pair and trade type; the other fields are the nested lookups, `None` when `adv` or `advertiser` is missing; `payment_methods` is the joined text; `raw_json` is a prefix of the serialisation of at most 500 characters, and the whole of it when it is short enough |
| Storage.AdRowWritten | core/storage.py:33 | a built row is always written, as exactly one line |
| Storage.PaymentMethodsJoin | core/storage.py:46 | trade methods with string names give the comma-join of the names, in order; names without commas split back into the same list |
| Storage.WrittenLinesAppend | core/storage.py:31-50 | writing listings in two batches appends the same lines as one batch |
| Storage.FailedRowSkipped | core/storage.py:32-50 | a listing whose row fails is skipped, and the listings after it are still written |
| Storage.OneRowPerListing | core/storage.py:31-50 | when every row is built and its keys are fields, exactly one line per listing is written, the i-th holding the cells of the i-th row |
| Storage.AdsOneRowEach | core/storage.py:31-48 | when every listing's row can be built, exactly one row per listing is written, the i-th line holding the i-th listing's row |
| Storage.SnapshotOneRow | core/storage.py:71-75 | a valid summary appends exactly one row: a new file has two lines, an existing one grows by one |

## Left out

- HTTP. `_fetch_ads` becomes the function parameter `fetch`, which yields the endpoint's `data` list or `[]`.
- The network calls of `p2p_info.py` are left out. `buy_copusdt` receives the two `data` lists.
- The Telegram `sendMessage` call and the reading of its response are left out. This is network I/O.
- Time.
  - `datetime.now`, the `pytz` conversion to Bogotá time, the `while True` loop and `time.sleep` are left out.
  - The local hour of `p2p_info.py` and the ISO timestamp of `save_ads_raw` are inputs.
- Analyzer.AnalyzeAds: the summary's `timestamp_utc` (core/analyzer.py:31) is dropped from `Summary`, not passed in.
- Storage.SaveAdsRaw: takes one timestamp `now` for every row of a call. The source reads the clock once per row.
- The filesystem.
  - Left out: `Path.mkdir`, the dated file names, `open`, and the text encoding of the CSV lines.
  - A file is the sequence of its lines. A line is the header or the cells of one row.
- `json.dumps` is a function parameter `dumps`. Its output is read as an opaque string.
- Floating point.
  - All arithmetic is exact over `real`.
  - `round(...)` in the summary row, in `simplify` and in the message is left out. So are `fmt` and `str(...)` for `top3_prices`.
  - Overflow, inf and nan are not modelled, except as the `None` spread of `Analyzer.NumpySpread`.
- Analyzer.AnalyzeAds: its summary carries the population variance of all prices (`priceVariance`) instead of `coef_var`. The square root that `np.std` takes and the division by the overall mean are not modelled.
- BinanceP2P.SimplifyOne: the listing's `price` is the parsed price, not `round(price, 1)`.
- PyValue.ToFloat: reads only strings of the form `[+-]digits[.digits]`. It does not accept surrounding whitespace, exponents, underscores, `inf` or `nan`. Integers are converted exactly, without float precision loss.
- The message text of `buy_copusdt` is left out. `P2PInfo.Quote` keeps the two listed prices and the three unrounded rates the message shows.
- The exceptions the scheduling loop would raise on a failed send are left out, as is the hard-coded chat configuration.
- Logging and configuration are left out: `log.warning`, `log.info`, and `config.py`'s environment loading and logger setup.
- `main.py` is not part of this model. It only orchestrates the other calls.
- `core/persistor.py` is not part of this model. Its header rule is similar but keyed on the file not existing before it is opened (core/persistor.py:11,15 and :24,31), not on the file being empty; it takes its field names from the data's own keys (:14, :30), and `save_ads` returns early on an empty list (:26-27).
- Python dictionary iteration order is not modelled. Dictionaries are maps; `DictWriter` puts the cells in field-name order, so every cell but `raw_json` is independent of it.
- Storage.AdRow: `raw_json` is `dumps(ad)` cut to 500 characters, with `dumps` a function of the map alone. `json.dumps` writes keys in insertion order, so the real cell, and which entries survive the cut, also depend on that order; the model does not capture this.
