# Cache-or-fetch layer of a stock data fetcher

This project models, in Dafny, the layer of a small stock-data tool that decides
whether a request for a ticker's data is answered from a local pickle cache or by
calling the Yahoo Finance provider. It also proves properties of that model. The
repository has two versions of this layer, and both are modelled:

- `modules/data_fetcher.py` is modelled by module `TickerFetcher`. It keeps one
  directory per ticker under `../cache/` and one file `<data_type>.pkl` per data
  type. It has nine data types: the historical price series and eight documents
  (info, balance sheet, financials, cashflow, calendar, income statement,
  recommendations, recommendations summary).
- `data_fetcher.py` is modelled by module `FlatFetcher`. It keeps flat files
  `cache/<ticker>_<data_type>.pkl` and has two data types: the historical series,
  normalised to a list of row records, and a financial bundle with four keys.

Module `Storage` holds what both versions share:

- Payloads. A DataFrame is kept abstract as `Frame`: an index name, column names
  and rows of cells. The fetchers test it with `IsEmpty`. The flat historical fetch
  also reads its index name, columns and rows to build its row records.
- The disk, class `Disk`. It maps each path to an artifact: its pickled value (or
  an unreadable file) and its modification time. It also holds a set of directories.
- The clock. It is a naive local wall-clock reading in seconds, `now`, passed to
  every fetch. Artifact modification times are read the same way. The time-to-live
  `TTL` is 86400 seconds of wall-clock time.
- The provider, class `Provider`. It is an oracle
  `respond: (Request, nat) -> Reply`, where the `nat` argument is the number of
  earlier calls. It keeps a log `calls`, which plays the part of a call-count spy.
- The freshness test `Fresh`, loading and saving (`Load`, `Save`) and POSIX
  `os.path.join` (`Join`).

Each fetch has a pure specification function over a `World`: the disk's files, its
directories and the provider's call log. Examples are `TickerFetcher.HistoricalStep`
and `FlatFetcher.FinancialStep`. The `ensures` clauses of these functions state the
cache policy. The methods of each `StockDataFetcher` class update the `Disk` and
`Provider` objects in place. Each method is proved to leave exactly the world its
specification function describes. Lemmas then relate several fetches: a store is
followed by hits, a run of fresh hits makes no call, and different keys give
different path strings.
Two client methods use only the class contracts. `TickerFetcher.InfoMissThenHit`
shows that two info fetches an hour apart make one provider call.
`FlatFetcher.EmptySeriesNotCached` shows that an empty series is never cached.

Points of the code's behaviour that the model keeps:

- Only the per-ticker historical fetch catches exceptions
  (modules/data_fetcher.py:59-73). Its `try` covers the freshness check, the
  load, the download and the save, and any exception gives the empty sentinel
  `pd.DataFrame()`. The other eight per-ticker fetches and both flat fetches let
  every exception through. This is modelled as an `Err` result.
- A corrupt artifact never triggers a re-fetch. The per-ticker historical fetch
  returns the empty sentinel for it. Every other fetch raises.
- Only the two historical fetches skip caching an empty series. The document
  fetches cache whatever comes back.
- The cache key is (ticker, data type) only. A second historical fetch within one
  day returns the cached series whatever date range it asks for
  (`HistoricalStoreThenHit`).

Python's duck typing is modelled where it changes the outcome:

- In `fetch_historical_data`, `.empty` on an answer that is not a DataFrame raises
  `AttributeError`. The per-ticker version catches it and returns the empty
  sentinel. The flat version lets it through.
- `DataFrame.to_pickle` and `.to_dict()` on an answer that is not a DataFrame raise
  `AttributeError` before anything is written.

## Model

| member | source | states |
|---|---|---|
| `Storage.FreshnessCutoff` | modules/data_fetcher.py:37-41 | a missing artifact is never fresh; a present one is fresh iff now < mtime + one day, so it is fresh one second before the day is up and stale at exactly one day |
| `Storage.Fresh` | modules/data_fetcher.py:37-41 | only an existing artifact can be fresh, and one whose modification time is not before `now` always is |
| `Storage.Load` | data_fetcher.py:38-40 | loading succeeds exactly when the file exists and unpickles, and then gives the pickled value; a missing file gives FileNotFound and an unreadable one UnpicklingError |
| `Storage.Save` | data_fetcher.py:42-44 | saving adds or replaces only the given path and leaves every other file as it was |
| `Storage.LoadAfterSave` | modules/data_fetcher.py:43-55 | loading a path just saved gives back the saved value; the save sets the mtime to now, so the artifact stays fresh for one day |
| `Storage.JoinShape` | modules/data_fetcher.py:35 | os.path.join: an absolute second part replaces the first; otherwise the result starts with the first part, ends with the second and adds one '/' between them exactly when the first is non-empty and does not end in '/' |
| `Storage.JoinInjective` | modules/data_fetcher.py:35 | os.path.join of one directory with two different relative names gives two different paths |
| `TickerFetcher.NamesDistinct` | modules/data_fetcher.py:58-160 | the nine data-type names are pairwise different and contain no '/' |
| `TickerFetcher.TickerDir` | modules/data_fetcher.py:32 | the ticker directory is `../cache/<ticker>` for a relative ticker and the ticker itself for an absolute one |
| `TickerFetcher.CachePath` | modules/data_fetcher.py:35 | the key's path starts with the ticker directory and ends with `<data_type>.pkl` |
| `TickerFetcher.CachePathLayout` | modules/data_fetcher.py:31-35 | for a plain ticker the ticker directory is `../cache/<ticker>` and the key's file is `<that directory>/<data_type>.pkl` |
| `TickerFetcher.DistinctKindsDistinctPaths` | modules/data_fetcher.py:31-35 | under one ticker, two different data types never share a file, for any ticker |
| `TickerFetcher.CachePathInjective` | modules/data_fetcher.py:31-35 | for non-empty tickers without '/', equal cache paths mean equal ticker and equal data type: no two keys collide |
| `TickerFetcher.WithTickerDir` | modules/data_fetcher.py:32-34 | after the path is computed, the ticker directory exists, no directory is removed and no other directory is added |
| `TickerFetcher.WithTickerDirIdempotent` | modules/data_fetcher.py:32-34 | making sure of the ticker directory twice gives the same directory set as once; if it already exists nothing changes |
| `TickerFetcher.HistoricalStep` | modules/data_fetcher.py:57-73 | the ticker directory is made sure of. A fresh hit makes no download, leaves the cache unchanged and returns the cached value (the empty sentinel if it is unreadable). A miss makes exactly one download. An empty answer, a failure or a non-DataFrame answer returns the empty sentinel and writes nothing. A non-empty DataFrame is stored under historical_data, exactly as downloaded, and returned. At most that one key is written, and only with the returned value |
| `TickerFetcher.DocumentStep` | modules/data_fetcher.py:75-169 | a fresh hit makes no call, writes nothing and returns the load result (the unpickling error escapes). A miss makes exactly one attribute request. It stores and returns any value that comes back, empty or not. A provider exception escapes uncaught. A non-DataFrame answer for a DataFrame-saved document raises AttributeError. In both error cases nothing is written. Only the document's own key can change |
| `TickerFetcher.HistoricalStoreThenHit` | modules/data_fetcher.py:58-70 | after a historical fetch that stored its download, any historical fetch for that ticker within one day returns the same value, with no download and no write, whatever date range it asks for |
| `TickerFetcher.DocumentLeavesOtherKeys` | modules/data_fetcher.py:75-85 | a document fetch leaves the entry of every other cache path untouched |
| `TickerFetcher.DocumentStoreThenHit` | modules/data_fetcher.py:75-85 | after a document fetch that missed and got a value, a fetch of the same document within one day returns that value with no call and no write |
| `TickerFetcher.FreshRunIsSilent` | modules/data_fetcher.py:58-62 | while a readable historical artifact stays fresh, any number of fetches all return it, make no call and write nothing |
| `TickerFetcher.MissThenServedFromCache` | modules/data_fetcher.py:58-70 | a miss that downloads a non-empty series, followed by any number of fetches within one day, calls the provider exactly once, stores that series, and every fetch returns it |
| `TickerFetcher.StockDataFetcher.constructor` | modules/data_fetcher.py:24-29 | the cache root `../cache/` exists afterwards; existing files are untouched |
| `TickerFetcher.StockDataFetcher.CacheFilePath` | modules/data_fetcher.py:31-35 | returns the key's path; the ticker directory exists afterwards; nothing else changes |
| `TickerFetcher.StockDataFetcher.IsCacheValid` | modules/data_fetcher.py:37-41 | true exactly when the artifact exists and is less than one day old |
| `TickerFetcher.StockDataFetcher.SaveDfToCache` | modules/data_fetcher.py:43-44 | the path now holds the pickled DataFrame with mtime now; nothing else changes |
| `TickerFetcher.StockDataFetcher.LoadDfFromCache` | modules/data_fetcher.py:46-47 | returns the unpickled content of the path, or the error |
| `TickerFetcher.StockDataFetcher.SaveDictToCache` | modules/data_fetcher.py:49-51 | the path now holds the pickled value with mtime now; nothing else changes |
| `TickerFetcher.StockDataFetcher.LoadDictFromCache` | modules/data_fetcher.py:53-55 | returns the unpickled content of the path, or the error |
| `TickerFetcher.StockDataFetcher.FetchHistoricalData` | modules/data_fetcher.py:57-73 | the result, the files, the directories and the call log are those of `HistoricalStep` |
| `TickerFetcher.StockDataFetcher.FetchDocument` | modules/data_fetcher.py:75-169 | the result and the new world are those of `DocumentStep` for the given document |
| `TickerFetcher.StockDataFetcher.FetchInfo` | modules/data_fetcher.py:75-85 | behaves as `DocumentStep` for info (saved with pickle.dump) |
| `TickerFetcher.StockDataFetcher.FetchBalanceSheet` | modules/data_fetcher.py:87-97 | behaves as `DocumentStep` for balance_sheet |
| `TickerFetcher.StockDataFetcher.FetchFinancials` | modules/data_fetcher.py:99-109 | behaves as `DocumentStep` for financials |
| `TickerFetcher.StockDataFetcher.FetchCashflow` | modules/data_fetcher.py:111-121 | behaves as `DocumentStep` for cashflow |
| `TickerFetcher.StockDataFetcher.FetchCalendar` | modules/data_fetcher.py:123-133 | behaves as `DocumentStep` for calendar (saved with pickle.dump) |
| `TickerFetcher.StockDataFetcher.FetchIncomeStatement` | modules/data_fetcher.py:135-145 | behaves as `DocumentStep` for income_statement (attribute income_stmt) |
| `TickerFetcher.StockDataFetcher.FetchRecommendations` | modules/data_fetcher.py:147-157 | behaves as `DocumentStep` for recommendations |
| `TickerFetcher.StockDataFetcher.FetchRecommendationsSummary` | modules/data_fetcher.py:159-169 | behaves as `DocumentStep` for recommendations_summary |
| `FlatFetcher.CacheFilePath` | data_fetcher.py:29-30 | the flat path is `cache/<ticker>_<data_type>.pkl` for a relative ticker; an absolute ticker escapes the cache directory and gives `<ticker>_<data_type>.pkl` |
| `FlatFetcher.CacheFilePathInjective` | data_fetcher.py:29-30 | for every pair of tickers, including absolute and empty ones, equal flat paths mean equal ticker and equal data type |
| `FlatFetcher.FlatPathsDiffer` | data_fetcher.py:29-30 | for one ticker, historical_data and financial_data have different files |
| `FlatFetcher.Zip` | data_fetcher.py:61 | pairs each column name with the cell at the same position, as far as both go |
| `FlatFetcher.RowRecord` | data_fetcher.py:60-61 | one row's record: the index value under the index name first, then each column name with the cell at its position, as far as both go |
| `FlatFetcher.Records` | data_fetcher.py:60-61 | one record per row, in row order, each built from its own row |
| `FlatFetcher.RecordsKeepCells` | data_fetcher.py:60-61 | for a well-formed frame, record i holds the index value first, then every cell of row i under its column name |
| `FlatFetcher.AsRecords` | data_fetcher.py:60-61 | the normalised series is a list with one record per row, record i built from row i |
| `FlatFetcher.HistoricalStep` | data_fetcher.py:46-64 | no directory changes. A fresh hit makes no call, writes nothing and returns the load result (an unreadable file raises). A miss makes exactly one download. A failure or a non-DataFrame answer escapes as an error. An empty frame returns `{}` and writes nothing. A non-empty one returns the list of its records, one per row, and stores exactly that list under historical_data |
| `FlatFetcher.Bundle` | data_fetcher.py:82-87 | the bundle has exactly the keys info, balance_sheet, financials and cashflow: the info value and the to_dict() of each of the three frames |
| `FlatFetcher.AsFrame` | data_fetcher.py:84-86 | reading a frame attribute gives the frame exactly when the provider returned a DataFrame; a raised call gives ProviderError and any other answer AttributeError |
| `FlatFetcher.FinancialStep` | data_fetcher.py:66-90 | no directory changes. A fresh hit returns the load result with no call and no write. A miss reads info, balance_sheet, financials and cashflow in dict-literal order. It succeeds exactly when info returns and the three others return DataFrames, and then makes all four calls and stores and returns `Bundle` of those four answers. Otherwise it returns the error of the first failing read, after the calls up to and including that read, and writes nothing |
| `FlatFetcher.HistoricalStoreThenHit` | data_fetcher.py:51-63 | after a historical fetch that stored records, a historical fetch within one day returns the same records with no download and no write, whatever date range it asks for |
| `FlatFetcher.FinancialStoreThenHit` | data_fetcher.py:76-90 | after a financial fetch that missed and succeeded, another within one day returns the same four-key bundle without contacting the provider |
| `FlatFetcher.FetchesIndependent` | data_fetcher.py:51-89 | a historical fetch never changes the financial entry of the same ticker, and a financial fetch never changes the historical entry |
| `FlatFetcher.StockDataFetcher.constructor` | data_fetcher.py:23-27 | the cache root `cache` exists afterwards; existing files are untouched |
| `FlatFetcher.StockDataFetcher.IsCacheValid` | data_fetcher.py:32-36 | true exactly when the artifact exists and is less than one day old |
| `FlatFetcher.StockDataFetcher.LoadFromCache` | data_fetcher.py:38-40 | returns the unpickled content of the path, or the error |
| `FlatFetcher.StockDataFetcher.SaveToCache` | data_fetcher.py:42-44 | the path now holds the pickled value with mtime now; nothing else changes |
| `FlatFetcher.StockDataFetcher.FetchHistoricalData` | data_fetcher.py:46-64 | the result and the new world are those of `HistoricalStep` |
| `FlatFetcher.StockDataFetcher.FetchFinancialData` | data_fetcher.py:66-90 | the result and the new world are those of `FinancialStep`, with the four calls made one by one |

## Left out

- The rate-limited, response-caching HTTP session at modules/data_fetcher.py:12-22, and its User-Agent header. Its throttling and response cache belong to third-party libraries that are not part of this model, and they concern timing and concurrency. The provider oracle stands for the provider as seen through that session.
- Concurrency. Every fetch is one atomic step, and same-key races are not modelled.
- The yfinance calls themselves. They are the oracle `respond`. Its answer may depend on the request and on how many calls came before it. Each attribute read counts as one call.
- The inside of a DataFrame and of `to_dict()`. A frame is an index name, column names and rows of cells. `FrameDict(f)` stands for `f.to_dict()` without its nested layout.
- `reset_index` and `to_dict(orient='records')`. These are modelled as one ordered list of (column, value) fields per row. A column name clash, and the `ValueError` that `reset_index` raises for it, are not modelled. Nor is the way a Python dict keeps the last of two equal keys.
- Pickle's byte format. An artifact is either the pickled value or an unreadable file.
- Clock and filesystem detail. The clock is an integer number of seconds taken once per fetch, so sub-second ages and a clock that moves during a fetch are not modelled.
- Daylight-saving changes. Ages are differences of naive local wall-clock times, so across a change the one-day cutoff falls after 23 or 25 real hours. The model works in wall-clock seconds and does not model the clock shift.
- Cache paths are compared as strings. The path lemmas say that different keys give different strings. They do not cover `..` segments, symbolic links or case-insensitive file systems, where two different strings can name one file.
- Write and directory failures. Saves always succeed: a full disk, a permission error, a missing parent directory and a truncated file after a failed `pickle.dump` are not modelled. `os.makedirs` adds only the leaf directory, so the intermediate directories it makes for a ticker containing '/' are not modelled.
- `os.path.exists` is true for a directory as well as a file. The model checks files and directories separately.
- `TickerFetcher.CachePathInjective`: stated only for non-empty tickers without '/'. Tickers such as "A" and "A/" do map to the same file.
- Logging configuration and messages.
- `main.py`. It only loops over three fixed tickers.
