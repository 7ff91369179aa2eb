# Stock_Analysis indicators in Dafny

This project models the indicator core of the Stock_Analysis toolkit, a set
of pandas helpers that download daily prices for a ticker and derive
indicators from them. The core has these parts:

- **Price summary.** The first row with the highest close, the first row with
  the lowest close, the last row, and two relative changes against the
  highest close.
- **Bollinger Bands.** A rolling mean of the closes, and bands at
  `num_sd` sample deviations either side of it.
- **Band-breach classifier.** It inspects the trailing rows and reports
  "Above Upper Band", "On Upper Band", "Below Lower Band" or "On Lower Band".
- **RSI.** The gain/loss split of the day-to-day differences and the RSI
  formula.
- **Overbought/oversold classifier.** A classifier over an RSI series.
- **Ticker-universe filter.** The filter over the Nasdaq and other-listed
  symbol directories.

The repository holds four near-copies of the indicator code. Each has its
own module:

| module | copy | what is distinct |
|---|---|---|
| `Functions` | functions.py | a fresh download per call; errors in the three download methods become `None`, while RSI raises; Overbought overrides the rest of the RSI classification |
| `LegacyFunctions` | legacy/funtions.py | the same code, but the band classifier falls back to `" "` |
| `StockAnalysis` | StockAnalysis/analysis_func.py | a class caching the download in `data`/`data_gotten`; a frame passed by the caller wins over the cache; the RSI classifier is a plain if/elif chain |
| `QuoteAnalysis` | analysis/analysis_func.py | a class caching in `quote`/`quote_gotten`; the cache wins over the caller's frame; nothing is caught, so errors propagate |

Shared concepts are defined once:

- `PriceData`: rows, outcomes, and Python/pandas slicing.
- `PriceSummary`: first-occurrence idxmax/idxmin and the summary.
- `Bollinger`: the rolling columns, and a `Frame` class whose method writes
  them in place.
- `BandSignals`: the mask pipeline of the band classifier and its row-wise
  specification.
- `Rsi`: the split, done in place on arrays, and the formula.
- `RsiSignals`: the comparison masks of the RSI classifier.

`CopyComparison` proves where the copies part ways.

Conventions of the model:

- **Downloads.** The Yahoo download is fixed in advance. For the function
  copies it is the value `fetched`. For the classes it is `downloads(k)`,
  the answer to the k-th download of that object. An answer is `Some(rows)`
  when the download succeeds and `None` when it raises. Each class keeps a
  counter `fetches` of the downloads it started, which selects the next
  answer (`NextDownload()`). So a retry after a failed download can
  succeed, and a repeated `get_hist_data` / `get_quote` can return other
  rows or fail.
- **Defaults.** The classes' default arguments are named constants:
  `StockAnalysis.DefaultWindowSize`, `DefaultNumSd`, `DefaultLastNDays`,
  `DefaultRsiWindow`, `DefaultEwma` and `DefaultRsiDays`, and the first
  three in `QuoteAnalysis`.
- **Errors.** A caught exception that makes a method return Python `None` is
  `Option.None`. An exception that propagates is `Outcome.Raised` with its
  cause.
- **NaN.** A NaN cell (warm-up rows of the rolling columns, a 0/0
  quotient) is `None`. pandas comparisons against it are false.
- **Sample deviation.** The sample standard deviation inside
  `rolling().std()` is a parameter `sd` of the model.
- **Smoothing.** The exponential smoothing `ewm(com=window-1).mean()` is a
  parameter `ewmMean`.

Two properties of the RSI classifiers' code:

- In functions.py the Overbought test is a separate `if`. It therefore
  overrides Oversold and Maybe Oversold.
- The "Maybe Overbought" test can never pass, in either copy.

The RSI branch that uses simple moving averages reads an undefined name. It
is modelled as always raising.

## Model

| member | source | states |
|---|---|---|
| PriceData.SliceFrom | functions.py:166 | Python `s[start:]` keeps a suffix: the last min(-start, n) rows for a negative start, all but the first min(start, n) rows otherwise |
| PriceData.Tail | StockAnalysis/analysis_func.py:75 | `tail(n)` keeps trailing rows: the last min(n, len) for a positive n, none for n = 0, all but the first -n for a negative n |
| PriceData.TrailingRows | StockAnalysis/analysis_func.py:75 | `tail(n)` and `[-n:]` both keep the last min(n, len) rows for n > 0; at n = 0 `tail` keeps nothing and `[-0:]` keeps everything; a negative n drops the first -n rows |
| PriceData.AnyTrueMeansSome | functions.py:169 | `any()` of a mask holds exactly when some entry is true |
| PriceData.AllTrueMeansEvery | functions.py:172 | `all()` of a mask holds exactly when every entry is true |
| PriceSummary.ArgMax | functions.py:36 | idxmax gives a row whose close is at least every close, and no earlier row has a close that large (the first occurrence) |
| PriceSummary.ArgMin | functions.py:37 | idxmin gives a row whose close is at most every close, and no earlier row has a close that small |
| PriceSummary.FirstExtremaUnique | functions.py:36-37 | the first-occurrence rule leaves exactly one admissible max row and one min row |
| PriceSummary.RelChange | functions.py:46-47 | (x - max) / max is defined exactly when max is non-zero, and times max it gives x - max |
| PriceSummary.Summarize | functions.py:33-48 | no summary exactly for an empty frame; otherwise the summary reports the first max row, the first min row, the last row and the two changes against the max |
| PriceSummary.DescribesDeterminesSummary | functions.py:39-48 | any two summaries that satisfy the description of the same frame are equal |
| PriceSummary.ChangesAgainstMax | functions.py:46-47 | with a positive max both changes are defined, (min - max)/max <= (current - max)/max <= 0, and the first is >= -1 when closes are non-negative |
| Bollinger.BollingerRows | functions.py:69-75 | the row count and every row's prices are kept; rolling_mean is present exactly from row w-1 on, the bands exactly from row w-1 on when w >= 2 (a one-row window has a NaN deviation) |
| Bollinger.BandsSymmetric | functions.py:72-73 | once the window is full (w >= 2 rows up to row i) the bands exist and upper - mean = mean - lower = num_sd * sd(window), so lower <= mean <= upper when num_sd >= 0 |
| Bollinger.MeanWithinWindow | functions.py:70 | the rolling mean lies between any bounds of the closes in its window |
| Bollinger.ConstantWindowMean | functions.py:70 | a window of equal closes has that close as its mean |
| Bollinger.Frame.AddBollingerColumns | functions.py:70-74 | writes rolling_mean, rolling_std, upper_band and lower_band into the frame, keeps its price rows, and the frame without rolling_std is the Bollinger table of those rows |
| BandSignals.MasksPerRow | functions.py:88-101 | `.all(1)` / `.any(1)` of a row of the gt / lt mask say that all / some of High, Low, Open, Close are beyond that row's band |
| BandSignals.MaskTests | functions.py:88-101 | each of the four `…all(1).any()` / `…any(1).any()` reductions holds exactly when some inspected row passes the matching row test |
| BandSignals.Classify | functions.py:88-105 | the mask pipeline equals the row-wise priority chain: all fields above, some field above, all fields below, some field below, else nothing |
| BandSignals.ClassifyOutcomes | StockAnalysis/analysis_func.py:76-92 | Above Upper Band iff some row is wholly above; On Upper Band only if no row is wholly above; a lower-band result only if no field exceeds its upper band; no result iff every field lies within its bands |
| BandSignals.WarmUpRowsIgnored | functions.py:88-101 | a row whose bands are NaN passes none of the tests, so adding it before or after the inspected rows changes nothing |
| BandSignals.NoRowsNoSignal | StockAnalysis/analysis_func.py:75-92 | inspecting no rows gives no band signal |
| BandSignals.FallbacksDiffer | legacy/funtions.py:98-99 | the `" "` fallback always yields a string, equals the `None` fallback whenever some test passed, and is never confused with a label |
| Rsi.Deltas | functions.py:132-133 | the differences are one fewer than the closes (none for an empty series), each the next close minus the current one |
| Rsi.GainLossSplit | functions.py:134-136 | gain = max(d, 0), loss = max(-d, 0), both non-negative, at most one non-zero, gain - loss = d |
| Rsi.FlatPricesNoMoves | functions.py:132-136 | a constant series has all gains and losses zero |
| Rsi.Differences | functions.py:132-133 | the loop fills a fresh array with the day-to-day differences |
| Rsi.CopyOf | functions.py:134 | `delta.copy()` is a fresh array with the same values |
| Rsi.ClipNegatives | functions.py:135 | `up[up < 0] = 0` in place turns the array into its gains |
| Rsi.ClipPositives | functions.py:136 | `down[down > 0] = 0` in place zeroes the positive entries and keeps the rest |
| Rsi.LossesAreAbsOfNonPositive | functions.py:136-141 | abs() of the clipped copy is exactly the loss series |
| Rsi.SplitGainsLosses | functions.py:132-141 | the in-place masking steps produce the gain series and the loss series of the differences |
| Rsi.RsiShareOfGains | functions.py:144-145 | with a positive average loss, 100 - 100 / (1 + up/down) = 100 * up / (up + down), which lies in [0, 100) |
| Rsi.RsiValue | functions.py:144-145 | with a zero average loss, RSI is 100 for a non-zero average gain (an infinite RS) and undefined for 0/0; for non-negative averages, RSI is undefined only when both are zero and otherwise lies in [0, 100]; with a positive average loss it is the share of gains 100 * up / (up + down) |
| Rsi.RsiSeries | functions.py:124-158 | the SMA branch raises; a window below 1 raises in ewm; otherwise the RSI of the smoothed gains and losses, one value per difference, every defined value in [0, 100] when the smoothing keeps non-negative values non-negative |
| RsiSignals.Mask | functions.py:169 | the comparison mask has one entry per RSI value, true exactly when the value is defined and passes the comparison |
| RsiSignals.AnyMask | functions.py:178 | `any(sub op c)` holds exactly when some value passes |
| RsiSignals.AllMask | functions.py:172 | `all(sub op c)` holds exactly when every value is defined and passes |
| RsiSignals.MaybeOverboughtTestFails | functions.py:175 | `all(sub < 70)` and `any(sub >= 70)` never hold together |
| Functions.GetMinAndMax | functions.py:29-60 | None exactly when the download fails or is empty; otherwise a summary describing the downloaded rows |
| Functions.AddBollingerBand | functions.py:64-78 | a result exactly when the download succeeds and the window is not negative, and then the Bollinger table of the downloaded rows |
| Functions.BBandOutliers | functions.py:80-110 | None exactly when the download fails; otherwise the symbol and the classification of the last three rows with the default bands whatever last_n_days is, None exactly when no inspected field is outside its band |
| Functions.ChainedTest | functions.py:172 | the chained comparison `a == True & b == True` holds exactly when a and b both hold |
| Functions.OverboughtOversold | functions.py:160-184 | Overbought iff some value >= 80, even beside a value <= 20; Oversold iff some value <= 20 and none >= 80; Maybe Oversold iff all above 20, some <= 30, none >= 80; never Maybe Overbought; None in every other case |
| Functions.QuietSeriesHasNoSignal | functions.py:166-184 | with no NaN among the inspected values, the result is None exactly when all lie strictly between 30 and 80 |
| LegacyFunctions.MinAndMaxReport | legacy/funtions.py:23-54 | no result exactly when the download fails or is empty; otherwise the first max and min rows, every close between them, the last row, and changes ordered and at most zero against a positive max |
| LegacyFunctions.BBandOutliers | legacy/funtions.py:74-104 | None exactly when the download fails; otherwise the classification of the last three rows whatever last_n_days is, with the indicator always a string and `" "` exactly when no field is outside its band |
| StockAnalysis.Analysis.constructor | StockAnalysis/analysis_func.py:10-12 | a new Analysis has downloaded nothing, holds no frame and data_gotten is false |
| StockAnalysis.Analysis.GetHistData | StockAnalysis/analysis_func.py:14-17 | one download, the next in the object's sequence of attempts; on success a fresh frame holding that download's rows and no indicator columns is cached, replacing any earlier one, and data_gotten set; on failure the cache is untouched |
| StockAnalysis.Analysis.CheckDataAvailability | StockAnalysis/analysis_func.py:19-24 | a frame passed in is returned with no download and no cache change; otherwise the cached frame, downloaded first only while data_gotten is false (so a call after a failed download tries again) and the same object on later calls; a failed download leaves the cache as it was |
| StockAnalysis.Analysis.MinMax | StockAnalysis/analysis_func.py:26-49 | a summary exactly when the chosen rows (the caller's frame, else the cached frame, else the next download) exist and are non-empty, describing those rows; downloads only when no frame is passed and nothing is cached; afterwards a passed frame leaves the cache as it was, a set data_gotten keeps the same cached frame, and otherwise data_gotten is set (with a fresh frame of the downloaded rows) exactly when that download succeeds |
| StockAnalysis.Analysis.BollingerBand | StockAnalysis/analysis_func.py:52-67 | a result exactly when the window is not negative and rows are available; the chosen frame (the caller's or the cached one) gains the four columns with its prices unchanged, and the result is its Bollinger table without rolling_std; a negative window writes nothing, and the cached frame is untouched when another frame is passed; afterwards a passed frame leaves the cache as it was, a set data_gotten keeps the same cached frame, and otherwise data_gotten is set (with a fresh frame of the downloaded rows) exactly when that download succeeds |
| StockAnalysis.Analysis.BBandOutliers | StockAnalysis/analysis_func.py:69-97 | the classification of `tail(last_n_days)` of the Bollinger table with a None fallback, last_n_days = 0 giving no signal; the chosen frame gains the four columns as in Bollinger_Band, nothing is written on a negative window; afterwards a passed frame leaves the cache as it was, a set data_gotten keeps the same cached frame, and otherwise data_gotten is set (with a fresh frame of the downloaded rows) exactly when that download succeeds |
| StockAnalysis.Analysis.Rsi | StockAnalysis/analysis_func.py:100-127 | without a series, the Close column of the cached frame or of the next download, with a failed download raising first; then the same split and formula as functions.py; a given series leaves the cache as it was, otherwise the cache is kept or filled as in Min_Max |
| StockAnalysis.OverboughtOversold | StockAnalysis/analysis_func.py:129-146 | Oversold iff some value <= 20, even beside a value >= 80; Overbought only with no value <= 20, Maybe Oversold not applying and some value >= 80; never Maybe Overbought; None otherwise |
| StockAnalysis.OverboughtWhenDefined | StockAnalysis/analysis_func.py:135-146 | with no NaN among the inspected values, Overbought iff every value is above 30 and some value reaches 80 |
| QuoteAnalysis.Analysis.constructor | analysis/analysis_func.py:7-9 | a new Analysis has downloaded nothing, holds no quote and quote_gotten is false |
| QuoteAnalysis.Analysis.GetQuote | analysis/analysis_func.py:11-14 | one download, the next in the object's sequence of attempts; on success a fresh frame holding that download's rows and no indicator columns is cached, replacing any earlier one, and quote_gotten set; on failure the cache is untouched |
| QuoteAnalysis.Analysis.SelectFrame | analysis/analysis_func.py:20-26 | a cached quote wins over a passed frame; otherwise a passed frame is used without downloading and without setting quote_gotten; only with neither is there a download (the next attempt), and a failed one leaves the cache as it was |
| QuoteAnalysis.Analysis.MinMax | analysis/analysis_func.py:16-41 | raises FetchFailed when the download fails and EmptySeries on an empty frame; otherwise a summary describing the chosen rows; afterwards a set quote_gotten keeps the same cached quote, a passed frame leaves the cache empty, and otherwise quote_gotten is set (with a fresh frame of the downloaded rows) exactly when that download succeeds |
| QuoteAnalysis.Analysis.BollingerBand | analysis/analysis_func.py:44-61 | raises on a failed download, then on a negative window, which writes nothing; otherwise the chosen frame gains the four columns with its prices unchanged and the result is its Bollinger table; a passed frame that lost to the cache is left untouched unless it is the cached frame itself; afterwards a set quote_gotten keeps the same cached quote, a passed frame leaves the cache empty, and otherwise quote_gotten is set (with a fresh frame of the downloaded rows) exactly when that download succeeds |
| QuoteAnalysis.Analysis.BBandOutliers | analysis/analysis_func.py:63-87 | the failures of Bollinger_Band pass through; otherwise the classification of `tail(last_n_days)` with the `" "` fallback, which last_n_days = 0 always yields; the chosen frame gains the four columns as in Bollinger_Band, nothing is written on a negative window; afterwards a set quote_gotten keeps the same cached quote, a passed frame leaves the cache empty, and otherwise quote_gotten is set (with a fresh frame of the downloaded rows) exactly when that download succeeds |
| Tickers.ContainsAt | GetStockData/get_tickers.py:41-46 | `str.contains` with a literal pattern holds exactly when the pattern occurs at some position |
| Tickers.ContainsChar | GetStockData/get_tickers.py:45-46 | the '.' and '$' tests hold exactly when the character occurs in the symbol |
| Tickers.DropFooter | GetStockData/get_tickers.py:35 | `[:-1]` keeps every row but the last, in order, and nothing of an empty file |
| Tickers.Filter | GetStockData/get_tickers.py:37-48 | the kept rows are input rows that pass the mask, and no more of them than the input |
| Tickers.FilterKeepsPassing | GetStockData/get_tickers.py:37-47 | every row that passes the mask is kept |
| Tickers.FilterAppend | GetStockData/get_tickers.py:37-48 | filtering a concatenation is the concatenation of the filtered parts, so the input order is preserved |
| Tickers.FilterIdempotent | GetStockData/get_tickers.py:58-66 | re-applying the row mask to the filtered rows removes nothing |
| Tickers.FooterIgnored | GetStockData/get_tickers.py:35-56 | whatever the last row of either file holds, the result is that of the rows before it |
| Tickers.ListedExactly | GetStockData/get_tickers.py:35-48 | after dropping the footer, masking and projecting, a listing comes out exactly when some non-footer row passes the mask and projects to it |
| Tickers.GetNasdaqTickers | GetStockData/get_tickers.py:28-49 | a (Symbol, Security Name) pair is listed exactly when some non-footer row passes every Nasdaq test (not N-traded, not a test issue, not an ETF, no excluded name, no '.' or '$') and projects to it |
| Tickers.GetOtherTickers | GetStockData/get_tickers.py:52-71 | a pair is listed exactly when some non-footer row passes the other-listed tests (no Nasdaq Traded test; symbol tests on ACT Symbol) and projects to it |
| Tickers.CleanSymbols | GetStockData/get_tickers.py:45-65 | no symbol in either list contains '.' or '$' |
| Tickers.ListingsKeepOrder | GetStockData/get_tickers.py:37-49 | the listings of a file split in two are those of the first part followed by those of the second |
| CopyComparison.OverboughtPrecedence | functions.py:168-184 | the functions.py classifier is the StockAnalysis chain overridden by Overbought whenever a value reaches 80 |
| CopyComparison.ClassifiersDisagree | StockAnalysis/analysis_func.py:135-146 | the two classifiers differ exactly when a value reaches 80 and the StockAnalysis chain stops at Oversold or Maybe Oversold |
| CopyComparison.LowThenHighDisagree | functions.py:169-179 | RSI values 18, 85 give Overbought in functions.py and Oversold in StockAnalysis |
| CopyComparison.NearLowThenHighDisagree | functions.py:172-179 | RSI values 25, 85 give Overbought in functions.py and Maybe Oversold in StockAnalysis |
| CopyComparison.CachePrecedenceDiffers | analysis/analysis_func.py:20-23 | with a cached download and a different frame passed in, StockAnalysis summarises the passed frame and the analysis/ copy the cached one |

## Left out

- The Yahoo download (`web.DataReader`, `GetData.get_hist_data`, `Quote.get_quote`) is network I/O. Its outcomes are given in advance, one per attempt. The messages printed on failure are not modelled.
- `update_tickers_list` (an ftp download) and the `pd.read_csv` parsing of the symbol directories are left out. The filter takes parsed rows holding only the columns it reads or returns. Missing (NaN) cells in those columns are not modelled.
- Floating point: the model uses exact reals. `round(..., 4)` on the bands and changes and `round(..., 2)` on RSI are omitted. A relative change against a zero maximum is `None`. In RSI, a quotient that is NaN (0/0) or that makes the RSI minus infinity is `None`, while an infinite RS (a positive average gain over a zero average loss) gives an RSI of 100, as numpy does. Closes are never NaN.
- Bollinger.Frame.AddBollingerColumns: the bands are exact, not rounded to four places, and the sample deviation is the parameter `sd` with no property assumed.
- PriceSummary.Summarize: the two relative changes are exact, not rounded to four places.
- Rsi.RsiSeries: RSI values are exact, not rounded to two places. The exponential smoothing is the parameter `ewmMean`, assumed only to return one value per input value.
- Rsi.RsiValue: an RSI of minus infinity (1 + up/down = 0, which needs averages of opposite signs) is `None` rather than -inf, so a classifier reading it sees no value; for non-negative averages, the only ones ewm produces from gains and losses, it cannot occur.
- StockAnalysis.Analysis.Rsi: as Rsi.RsiSeries, with the same smoothing parameter.
- The band classifiers follow pandas 1.x, where `.drop('upper_band', 1)` passes the axis by position. pandas 2.0 rejects that call with a TypeError, which would make every BBand_Outliers return None (or raise, in the analysis/ copy); that behaviour is not modelled.
- The multiprocessing wrappers `All_Min_and_Max`, `All_BBands_Outliers` and `all_RSI_indicators` are glue around the modelled calls.
- `gc.collect()` and the `del` statements only manage memory.
- The package re-export files GeStocktData/__init__.py and get_data/__init__.py are left out.
- The `start`/`end` fields and `all_min_max` list of `Stock`, and the dates passed to the downloads, are never read by the modelled logic.
- Dates are opaque ordered integers; `.date()` is not modelled.
- Frames are indexed by position, as they are after `reset_index`.
- The extra `index` column that `reset_index()` adds inside BBand_Outliers is not modelled.
- Python's dynamic typing is not modelled: a window that is not an integer, or a non-numeric `num_sd`, cannot be expressed.
