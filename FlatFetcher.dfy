/**
 * The flat cache of data_fetcher.py: every artifact sits directly in "cache",
 * named "<ticker>_<data_type>.pkl", and there are two data types.  The
 * historical series is turned into a list of row records before it is cached;
 * the financial data is a bundle of four documents.  No fetch catches
 * anything: every exception reaches the caller.
 */
module FlatFetcher {
  import opened Storage

  /** The cache root set by the constructor. */
  const CacheDir: string := "cache"

  datatype DataType = HistoricalData | FinancialData {
    function Name(): string {
      match this
      case HistoricalData => "historical_data"
      case FinancialData => "financial_data"
    }
  }

  /** _get_cache_file_path: os.path.join(cache_dir, f"{ticker}_{data_type}.pkl"); no directory is made. */
  function CacheFilePath(ticker: string, kind: DataType): (r: string)
    ensures !IsAbsolute(ticker) ==> r == CacheDir + "/" + ticker + "_" + kind.Name() + ".pkl"
    ensures IsAbsolute(ticker) ==> r == ticker + "_" + kind.Name() + ".pkl"
  {
    Join(CacheDir, ticker + "_" + kind.Name() + ".pkl")
  }

  /** The part of the file name that follows the ticker. */
  function Suffix(kind: DataType): string {
    "_" + kind.Name() + ".pkl"
  }

  lemma FileNameSplit(ticker: string, kind: DataType)
    ensures ticker + "_" + kind.Name() + ".pkl" == ticker + Suffix(kind)
  {
  }

  /**
   * "_financial_data.pkl" is 19 characters long and "_historical_data.pkl" 20,
   * so the character 19 places from the end tells the two suffixes apart.
   */
  lemma NineteenthFromEnd(t: string, kind: DataType)
    ensures |t + Suffix(kind)| >= 19
    ensures (t + Suffix(kind))[|t + Suffix(kind)| - 19] == if kind == FinancialData then '_' else 'h'
  {
  }

  /** Two tickers followed by the same suffix are the same ticker; different suffixes never end one string. */
  lemma SuffixDecides(t1: string, k1: DataType, t2: string, k2: DataType)
    requires t1 + Suffix(k1) == t2 + Suffix(k2)
    ensures t1 == t2 && k1 == k2
  {
    if k1 != k2 {
      NineteenthFromEnd(t1, k1);
      NineteenthFromEnd(t2, k2);
      assert false;
    }
    CancelSuffix(t1, t2, Suffix(k1));
  }

  /** A flat path starts with the '/' of an absolute ticker or with the 'c' of "cache/". */
  lemma FirstCharacter(t: string, kind: DataType)
    ensures |CacheFilePath(t, kind)| > 0
    ensures CacheFilePath(t, kind)[0] == if IsAbsolute(t + Suffix(kind)) then '/' else 'c'
  {
  }

  /** No two (ticker, data type) keys share a file, whatever the tickers. */
  lemma CacheFilePathInjective(t1: string, k1: DataType, t2: string, k2: DataType)
    requires CacheFilePath(t1, k1) == CacheFilePath(t2, k2)
    ensures t1 == t2 && k1 == k2
  {
    FileNameSplit(t1, k1);
    FileNameSplit(t2, k2);
    var b1, b2 := t1 + Suffix(k1), t2 + Suffix(k2);
    if IsAbsolute(b1) != IsAbsolute(b2) {
      FirstCharacter(t1, k1);
      FirstCharacter(t2, k2);
      assert false;
    } else if !IsAbsolute(b1) {
      JoinInjective(CacheDir, b1, b2);
    }
    SuffixDecides(t1, k1, t2, k2);
  }

  /** Under one ticker the historical series and the financial bundle have different files. */
  lemma FlatPathsDiffer(ticker: string)
    ensures CacheFilePath(ticker, HistoricalData) != CacheFilePath(ticker, FinancialData)
  {
  }

  // ---------------------------------------------------------------------------
  // Normalisation of the historical series
  // ---------------------------------------------------------------------------

  /** Pairs column names with cells, position by position, as far as both go. */
  function Zip(names: seq<string>, cells: seq<Cell>): (r: seq<Field>)
    ensures |r| == if |names| < |cells| then |names| else |cells|
    ensures forall j :: 0 <= j < |r| ==> r[j] == Field(names[j], cells[j])
  {
    if names == [] || cells == [] then []
    else [Field(names[0], cells[0])] + Zip(names[1..], cells[1..])
  }

  /** One row after reset_index: the index value under the index name, then the columns in order. */
  function RowRecord(indexName: string, columns: seq<string>, row: Row): (r: Value)
    ensures r.Record? && |r.fields| == 1 + (if |columns| < |row.cells| then |columns| else |row.cells|)
    ensures r.fields[0] == Field(indexName, row.index)
    ensures forall j :: 0 <= j < |r.fields| - 1 ==> r.fields[j + 1] == Field(columns[j], row.cells[j])
  {
    Record([Field(indexName, row.index)] + Zip(columns, row.cells))
  }

  /** data.reset_index(); data.to_dict(orient='records'): one record per row, in row order. */
  function Records(indexName: string, columns: seq<string>, rows: seq<Row>): (r: seq<Value>)
    ensures |r| == |rows|
    ensures forall i :: 0 <= i < |r| ==> r[i] == RowRecord(indexName, columns, rows[i])
  {
    if rows == [] then []
    else [RowRecord(indexName, columns, rows[0])] + Records(indexName, columns, rows[1..])
  }

  /** The records of a frame whose rows all have one cell per column keep every cell under its column. */
  lemma RecordsKeepCells(f: Frame, i: int, j: int)
    requires 0 <= i < |f.rows| && 0 <= j < |f.columns|
    requires |f.rows[i].cells| == |f.columns|
    ensures var rec := Records(f.indexName, f.columns, f.rows)[i];
      rec.Record? && |rec.fields| == |f.columns| + 1 &&
      rec.fields[0] == Field(f.indexName, f.rows[i].index) &&
      rec.fields[j + 1] == Field(f.columns[j], f.rows[i].cells[j])
  {
  }

  /** The normalised form of a downloaded frame, as cached and returned. */
  function AsRecords(f: Frame): (r: Value)
    ensures r.List? && |r.items| == |f.rows|
    ensures forall i :: 0 <= i < |r.items| ==> r.items[i] == RowRecord(f.indexName, f.columns, f.rows[i])
  {
    List(Records(f.indexName, f.columns, f.rows))
  }

  /** The empty dict, the historical fetch's answer for "no data". */
  const NoData: Value := Dict(map[])

  /**
   * fetch_historical_data.  A fresh artifact is loaded (an unreadable one
   * raises); otherwise the series is downloaded, an exception escapes, an
   * empty frame gives {} and is not stored, and a non-empty one is normalised
   * to records, stored and returned.  The cache key ignores the date range.
   */
  function HistoricalStep(w: World, respond: Oracle, ticker: string, start: string, end: string, now: int): (o: Outcome<Result<Value>>)
    ensures o.world.dirs == w.dirs
    ensures Fresh(w.files, CacheFilePath(ticker, HistoricalData), now) ==>
      o.world == w && o.result == Load(w.files, CacheFilePath(ticker, HistoricalData))
    ensures !Fresh(w.files, CacheFilePath(ticker, HistoricalData), now) ==>
      o.world.calls == w.calls + [Download(ticker, start, end)]
    ensures o.world.files == w.files ||
      (o.result.Ok? && o.world.files == Save(w.files, CacheFilePath(ticker, HistoricalData), o.result.value, now))
    ensures !Fresh(w.files, CacheFilePath(ticker, HistoricalData), now) ==>
      var reply := respond(Download(ticker, start, end), |w.calls|);
      if reply.Raised? then o.result == Err(ProviderError) && o.world.files == w.files
      else if !reply.v.Table? then o.result == Err(AttributeError) && o.world.files == w.files
      else if reply.v.frame.IsEmpty() then o.result == Ok(NoData) && o.world.files == w.files
      else
        o.result == Ok(AsRecords(reply.v.frame)) &&
        |o.result.value.items| == |reply.v.frame.rows| &&
        o.world.files == Save(w.files, CacheFilePath(ticker, HistoricalData), o.result.value, now)
  {
    var path := CacheFilePath(ticker, HistoricalData);
    if Fresh(w.files, path, now) then
      Outcome(Load(w.files, path), w)
    else
      var q := Download(ticker, start, end);
      var calls := w.calls + [q];
      match respond(q, |w.calls|)
      case Raised => Outcome(Err(ProviderError), World(w.files, w.dirs, calls))
      case Returned(Table(f)) =>
        if f.IsEmpty() then Outcome(Ok(NoData), World(w.files, w.dirs, calls))
        else Outcome(Ok(AsRecords(f)), World(Save(w.files, path, AsRecords(f), now), w.dirs, calls))
      case Returned(_) => Outcome(Err(AttributeError), World(w.files, w.dirs, calls))
  }

  /** The four requests of a financial fetch that misses, in the order the dict literal reads them. */
  function FinancialRequests(ticker: string): seq<Request> {
    [Attribute(ticker, "info"), Attribute(ticker, "balance_sheet"),
     Attribute(ticker, "financials"), Attribute(ticker, "cashflow")]
  }

  /** The keys of the financial bundle. */
  const FinancialKeys: set<string> := {"info", "balance_sheet", "financials", "cashflow"}

  /** The bundle built from the four answers. */
  function Bundle(info: Value, balanceSheet: Frame, financials: Frame, cashflow: Frame): (r: Value)
    ensures r.Dict? && r.entries.Keys == FinancialKeys
    ensures r.entries["info"] == info && r.entries["balance_sheet"] == FrameDict(balanceSheet)
    ensures r.entries["financials"] == FrameDict(financials) && r.entries["cashflow"] == FrameDict(cashflow)
  {
    Dict(map["info" := info, "balance_sheet" := FrameDict(balanceSheet),
             "financials" := FrameDict(financials), "cashflow" := FrameDict(cashflow)])
  }

  /**
   * Reading a DataFrame attribute before calling to_dict() on it: the frame,
   * or the provider's exception, or AttributeError when the answer is not a
   * DataFrame.
   */
  function AsFrame(a: Reply): (r: Result<Frame>)
    ensures r.Ok? <==> a.Returned? && a.v.Table?
    ensures r.Ok? ==> a == Returned(Table(r.value))
    ensures a.Raised? ==> r == Err(ProviderError)
    ensures a.Returned? && !a.v.Table? ==> r == Err(AttributeError)
  {
    match a
    case Raised => Err(ProviderError)
    case Returned(Table(f)) => Ok(f)
    case Returned(_) => Err(AttributeError)
  }

  /**
   * fetch_financial_data.  A fresh artifact is loaded (an unreadable one
   * raises).  Otherwise info, balance_sheet, financials and cashflow are read
   * in that order; the first exception stops the fetch, with the calls made so
   * far logged and nothing stored.  When all four succeed the bundle is stored
   * and returned.
   */
  function FinancialStep(w: World, respond: Oracle, ticker: string, now: int): (o: Outcome<Result<Value>>)
    ensures o.world.dirs == w.dirs
    ensures Fresh(w.files, CacheFilePath(ticker, FinancialData), now) ==>
      o.world == w && o.result == Load(w.files, CacheFilePath(ticker, FinancialData))
    ensures !Fresh(w.files, CacheFilePath(ticker, FinancialData), now) ==>
      exists n :: 1 <= n <= 4 && o.world.calls == w.calls + FinancialRequests(ticker)[..n]
    // a miss that succeeds makes all four calls and stores a bundle with exactly the four keys
    ensures !Fresh(w.files, CacheFilePath(ticker, FinancialData), now) && o.result.Ok? ==>
      o.world.calls == w.calls + FinancialRequests(ticker) &&
      o.result.value.Dict? && o.result.value.entries.Keys == FinancialKeys &&
      o.world.files == Save(w.files, CacheFilePath(ticker, FinancialData), o.result.value, now)
    ensures !Fresh(w.files, CacheFilePath(ticker, FinancialData), now) && o.result.Err? ==>
      o.world.files == w.files
    // a miss succeeds exactly when all four answers are usable, and then stores the bundle of those answers
    ensures !Fresh(w.files, CacheFilePath(ticker, FinancialData), now) ==>
      var n, rs := |w.calls|, FinancialRequests(ticker);
      var info := respond(rs[0], n);
      var bs, fin, cf := AsFrame(respond(rs[1], n + 1)), AsFrame(respond(rs[2], n + 2)), AsFrame(respond(rs[3], n + 3));
      (o.result.Ok? <==> info.Returned? && bs.Ok? && fin.Ok? && cf.Ok?) &&
      (o.result.Ok? ==> o.result.value == Bundle(info.v, bs.value, fin.value, cf.value))
    // a miss that fails reports the first failing read, after the calls up to and including it
    ensures !Fresh(w.files, CacheFilePath(ticker, FinancialData), now) ==>
      var n, rs := |w.calls|, FinancialRequests(ticker);
      var info := respond(rs[0], n);
      var bs, fin, cf := AsFrame(respond(rs[1], n + 1)), AsFrame(respond(rs[2], n + 2)), AsFrame(respond(rs[3], n + 3));
      if info.Raised? then o.result == Err(ProviderError) && o.world.calls == w.calls + rs[..1]
      else if bs.Err? then o.result == Err(bs.error) && o.world.calls == w.calls + rs[..2]
      else if fin.Err? then o.result == Err(fin.error) && o.world.calls == w.calls + rs[..3]
      else if cf.Err? then o.result == Err(cf.error) && o.world.calls == w.calls + rs
      else o.result.Ok?
  {
    var path := CacheFilePath(ticker, FinancialData);
    if Fresh(w.files, path, now) then
      Outcome(Load(w.files, path), w)
    else
      var n := |w.calls|;
      var rs := FinancialRequests(ticker);
      var info := respond(rs[0], n);
      if info.Raised? then Outcome(Err(ProviderError), World(w.files, w.dirs, w.calls + rs[..1]))
      else
        var bs := AsFrame(respond(rs[1], n + 1));
        if bs.Err? then Outcome(Err(bs.error), World(w.files, w.dirs, w.calls + rs[..2]))
        else
          var fin := AsFrame(respond(rs[2], n + 2));
          if fin.Err? then Outcome(Err(fin.error), World(w.files, w.dirs, w.calls + rs[..3]))
          else
            var cf := AsFrame(respond(rs[3], n + 3));
            assert rs[..4] == rs;
            if cf.Err? then Outcome(Err(cf.error), World(w.files, w.dirs, w.calls + rs))
            else
              var data := Bundle(info.v, bs.value, fin.value, cf.value);
              Outcome(Ok(data), World(Save(w.files, path, data, now), w.dirs, w.calls + rs))
  }

  // ---------------------------------------------------------------------------
  // Properties relating several fetches
  // ---------------------------------------------------------------------------

  /**
   * After a historical fetch that stored its records, a historical fetch for
   * the same ticker within one day returns the same records without
   * downloading, whatever date range it asks for.
   */
  lemma HistoricalStoreThenHit(w: World, respond: Oracle, ticker: string, start: string, end: string, now: int,
                               start2: string, end2: string, later: int)
    requires HistoricalStep(w, respond, ticker, start, end, now).world.files != w.files
    requires later - now < TTL
    ensures var first := HistoricalStep(w, respond, ticker, start, end, now);
      var second := HistoricalStep(first.world, respond, ticker, start2, end2, later);
      second.result == first.result && second.world == first.world
  {
  }

  /**
   * After a financial fetch that missed and succeeded, a second one within
   * one day returns the same bundle without contacting the provider.
   */
  lemma FinancialStoreThenHit(w: World, respond: Oracle, ticker: string, now: int, later: int)
    requires !Fresh(w.files, CacheFilePath(ticker, FinancialData), now)
    requires FinancialStep(w, respond, ticker, now).result.Ok?
    requires later - now < TTL
    ensures var first := FinancialStep(w, respond, ticker, now);
      var second := FinancialStep(first.world, respond, ticker, later);
      second.result == first.result && second.world == first.world &&
      second.result.value.entries.Keys == FinancialKeys
  {
  }

  /** The two fetches touch different files: one never changes the other's entry. */
  lemma FetchesIndependent(w: World, respond: Oracle, ticker: string, start: string, end: string, now: int)
    ensures var h := CacheFilePath(ticker, HistoricalData);
      var f := CacheFilePath(ticker, FinancialData);
      var o1 := HistoricalStep(w, respond, ticker, start, end, now);
      var o2 := FinancialStep(w, respond, ticker, now);
      (f in o1.world.files <==> f in w.files) && (f in w.files ==> o1.world.files[f] == w.files[f]) &&
      (h in o2.world.files <==> h in w.files) && (h in w.files ==> o2.world.files[h] == w.files[h])
  {
  }

  // ---------------------------------------------------------------------------
  // The fetcher object
  // ---------------------------------------------------------------------------

  class StockDataFetcher {
    const disk: Disk
    const source: Provider

    /** The disk and the provider's log, seen together. */
    function Current(): World
      reads disk, source
    {
      World(disk.files, disk.dirs, source.calls)
    }

    /** Creates the cache root if it does not exist. */
    constructor (disk: Disk, source: Provider)
      modifies disk
      ensures this.disk == disk && this.source == source
      ensures disk.dirs == old(disk.dirs) + {CacheDir} && disk.files == old(disk.files)
    {
      this.disk := disk;
      this.source := source;
      new;
      var present := disk.DirExists(CacheDir);
      if !present {
        disk.MakeDirs(CacheDir);
      }
    }

    /** _is_cache_valid, with the clock reading passed in. */
    method IsCacheValid(path: string, now: int) returns (valid: bool)
      ensures valid <==> Fresh(disk.files, path, now)
    {
      var present := disk.FileExists(path);
      if !present {
        return false;
      }
      var lastModified := disk.ModifiedTime(path);
      valid := now - lastModified < TTL;
    }

    /** _load_from_cache. */
    method LoadFromCache(path: string) returns (r: Result<Value>)
      ensures r == Load(disk.files, path)
    {
      r := disk.Read(path);
    }

    /** _save_to_cache. */
    method SaveToCache(path: string, data: Value, now: int)
      modifies disk
      ensures disk.files == Save(old(disk.files), path, data, now) && disk.dirs == old(disk.dirs)
    {
      disk.Write(path, data, now);
    }

    /** fetch_historical_data. */
    method FetchHistoricalData(ticker: string, start: string, end: string, now: int) returns (r: Result<Value>)
      modifies disk, source
      ensures Outcome(r, Current()) == HistoricalStep(old(Current()), source.respond, ticker, start, end, now)
    {
      var path := CacheFilePath(ticker, HistoricalData);
      var valid := IsCacheValid(path, now);
      if valid {
        r := LoadFromCache(path);
        return;
      }
      var data := source.Call(Download(ticker, start, end));
      if data.Raised? {
        return Err(ProviderError);
      }
      if !data.v.Table? {
        return Err(AttributeError);
      }
      if data.v.frame.IsEmpty() {
        return Ok(NoData);
      }
      var records := AsRecords(data.v.frame);
      SaveToCache(path, records, now);
      r := Ok(records);
    }

    /** fetch_financial_data. */
    method FetchFinancialData(ticker: string, now: int) returns (r: Result<Value>)
      modifies disk, source
      ensures Outcome(r, Current()) == FinancialStep(old(Current()), source.respond, ticker, now)
    {
      var path := CacheFilePath(ticker, FinancialData);
      var valid := IsCacheValid(path, now);
      if valid {
        r := LoadFromCache(path);
        return;
      }
      var info := source.Call(Attribute(ticker, "info"));
      if info.Raised? {
        return Err(ProviderError);
      }
      var balanceSheet := source.Call(Attribute(ticker, "balance_sheet"));
      var bs := AsFrame(balanceSheet);
      if bs.Err? {
        return Err(bs.error);
      }
      var financials := source.Call(Attribute(ticker, "financials"));
      var fin := AsFrame(financials);
      if fin.Err? {
        return Err(fin.error);
      }
      var cashflow := source.Call(Attribute(ticker, "cashflow"));
      var cf := AsFrame(cashflow);
      if cf.Err? {
        return Err(cf.error);
      }
      var data := Bundle(info.v, bs.value, fin.value, cf.value);
      SaveToCache(path, data, now);
      r := Ok(data);
    }
  }

  /**
   * A client of the fetcher: a provider that has no rows for a date range
   * gives {} twice, with a download each time, and the cache stays empty.
   */
  method EmptySeriesNotCached(now: int)
  {
    var disk := new Disk(map[], {});
    var source := new Provider((q: Request, n: nat) => Returned(Table(Frame("Date", ["Close"], []))));
    var fetcher := new StockDataFetcher(disk, source);
    var first := fetcher.FetchHistoricalData("NFLX", "2099-01-01", "2099-12-31", now);
    assert first == Ok(NoData) && disk.files == map[];
    var second := fetcher.FetchHistoricalData("NFLX", "2099-01-01", "2099-12-31", now + 1);
    assert second == Ok(NoData) && disk.files == map[] && |source.calls| == 2;
  }
}
