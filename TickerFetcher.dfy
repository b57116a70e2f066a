/**
 * The per-ticker cache of modules/data_fetcher.py: one directory per ticker
 * under "../cache/", one pickle file per data type inside it.  The historical
 * series is fetched with yf.download, the eight documents by reading one
 * attribute of yf.Ticker(ticker).  Only the historical fetch catches errors
 * and skips caching an empty answer; the document fetches cache whatever comes
 * back and let every exception through.
 */
module TickerFetcher {
  import opened Storage

  /** The cache root set by the constructor. */
  const CacheDir: string := "../cache/"

  /** The eight documents read from yf.Ticker(ticker). */
  datatype Document =
    | Info | BalanceSheet | Financials | Cashflow | Calendar
    | IncomeStatement | Recommendations | RecommendationsSummary
  {
    /** The yf.Ticker attribute the fetch reads. */
    function Attribute(): string {
      match this
      case Info => "info"
      case BalanceSheet => "balance_sheet"
      case Financials => "financials"
      case Cashflow => "cashflow"
      case Calendar => "calendar"
      case IncomeStatement => "income_stmt"
      case Recommendations => "recommendations"
      case RecommendationsSummary => "recommendations_summary"
    }

    /** Saved with DataFrame.to_pickle (all but info and calendar, which go through pickle.dump). */
    predicate SavedAsFrame() {
      !(this == Info || this == Calendar)
    }
  }

  /** The nine cache keys under one ticker. */
  datatype DataType = HistoricalData | Doc(doc: Document) {
    /** The data_type string of the cache key. */
    function Name(): string {
      match this
      case HistoricalData => "historical_data"
      case Doc(Info) => "info"
      case Doc(BalanceSheet) => "balance_sheet"
      case Doc(Financials) => "financials"
      case Doc(Cashflow) => "cashflow"
      case Doc(Calendar) => "calendar"
      case Doc(IncomeStatement) => "income_statement"
      case Doc(Recommendations) => "recommendations"
      case Doc(RecommendationsSummary) => "recommendations_summary"
    }
  }

  /** Different data types have different names, and no name is an absolute path or holds a '/'. */
  lemma NamesDistinct(k1: DataType, k2: DataType)
    ensures k1 != k2 ==> k1.Name() != k2.Name()
    ensures forall i :: 0 <= i < |k1.Name()| ==> k1.Name()[i] != '/'
  {
  }

  /** The directory of one ticker: os.path.join(cache_dir, ticker). */
  function TickerDir(ticker: string): (r: string)
    ensures !IsAbsolute(ticker) ==> r == CacheDir + ticker
    ensures IsAbsolute(ticker) ==> r == ticker
  {
    Join(CacheDir, ticker)
  }

  /** The file of one cache key: os.path.join(ticker_cache_dir, f"{data_type}.pkl"). */
  function CachePath(ticker: string, kind: DataType): (r: string)
    ensures |r| >= |TickerDir(ticker)| + |kind.Name() + ".pkl"|
    ensures r[..|TickerDir(ticker)|] == TickerDir(ticker)
    ensures r[|r| - |kind.Name() + ".pkl"|..] == kind.Name() + ".pkl"
  {
    JoinShape(TickerDir(ticker), kind.Name() + ".pkl");
    Join(TickerDir(ticker), kind.Name() + ".pkl")
  }

  /** A ticker that os.path.join treats as one plain path component. */
  predicate SimpleTicker(t: string) {
    |t| > 0 && forall i :: 0 <= i < |t| ==> t[i] != '/'
  }

  lemma FileNameRelative(kind: DataType)
    ensures !IsAbsolute(kind.Name() + ".pkl")
    ensures forall i :: 0 <= i < |kind.Name() + ".pkl"| ==> (kind.Name() + ".pkl")[i] != '/'
  {
  }

  /** For a plain ticker the key's file is "../cache/<ticker>/<data_type>.pkl", inside the ticker's directory. */
  lemma CachePathLayout(ticker: string, kind: DataType)
    requires SimpleTicker(ticker)
    ensures TickerDir(ticker) == CacheDir + ticker
    ensures CachePath(ticker, kind) == TickerDir(ticker) + "/" + (kind.Name() + ".pkl")
  {
  }

  /** Under one ticker, distinct data types never share a file. */
  lemma DistinctKindsDistinctPaths(ticker: string, k1: DataType, k2: DataType)
    requires k1 != k2
    ensures CachePath(ticker, k1) != CachePath(ticker, k2)
  {
    FileNameRelative(k1);
    FileNameRelative(k2);
    NamesDistinct(k1, k2);
    if CachePath(ticker, k1) == CachePath(ticker, k2) {
      JoinInjective(TickerDir(ticker), k1.Name() + ".pkl", k2.Name() + ".pkl");
      CancelSuffix(k1.Name(), k2.Name(), ".pkl");
      assert false;
    }
  }

  /** For plain tickers no two cache keys collide. */
  lemma CachePathInjective(t1: string, k1: DataType, t2: string, k2: DataType)
    requires SimpleTicker(t1) && SimpleTicker(t2)
    requires CachePath(t1, k1) == CachePath(t2, k2)
    ensures t1 == t2 && k1 == k2
  {
    CachePathLayout(t1, k1);
    CachePathLayout(t2, k2);
    var n1, n2 := k1.Name() + ".pkl", k2.Name() + ".pkl";
    Regroup(CacheDir, t1, n1);
    Regroup(CacheDir, t2, n2);
    CancelPrefix(CacheDir, t1 + "/" + n1, t2 + "/" + n2);
    SplitAtFirstSlash(t1, n1, t2, n2);
    CancelSuffix(k1.Name(), k2.Name(), ".pkl");
    NamesDistinct(k1, k2);
  }

  lemma Regroup(a: string, t: string, n: string)
    ensures a + t + "/" + n == a + (t + "/" + n)
  {
  }

  /** The directory set after _get_cache_file_path has made sure the ticker's directory exists. */
  function WithTickerDir(dirs: set<string>, ticker: string): (r: set<string>)
    ensures TickerDir(ticker) in r && dirs <= r && r - dirs <= {TickerDir(ticker)}
  {
    dirs + {TickerDir(ticker)}
  }

  /** Making sure of the ticker directory a second time changes nothing. */
  lemma WithTickerDirIdempotent(dirs: set<string>, ticker: string)
    ensures WithTickerDir(WithTickerDir(dirs, ticker), ticker) == WithTickerDir(dirs, ticker)
    ensures TickerDir(ticker) in dirs ==> WithTickerDir(dirs, ticker) == dirs
  {
  }

  /** pd.DataFrame(), the historical fetch's answer for "no data" and for every failure. */
  const EmptyResult: Value := Table(EmptyFrame)

  /**
   * fetch_historical_data.  The cache key ignores the date range.  Inside the
   * try: a fresh artifact is loaded (an unreadable one gives the empty
   * sentinel); otherwise the series is downloaded, an empty or failed answer
   * gives the empty sentinel and is not stored, and a non-empty one is stored
   * and returned.  Making sure of the ticker directory happens before the try.
   */
  function HistoricalStep(w: World, respond: Oracle, ticker: string, start: string, end: string, now: int): (o: Outcome<Value>)
    ensures o.world.dirs == WithTickerDir(w.dirs, ticker)
    // the provider is called exactly when the artifact is not fresh, and then once
    ensures Fresh(w.files, CachePath(ticker, HistoricalData), now) ==> o.world.calls == w.calls
    ensures !Fresh(w.files, CachePath(ticker, HistoricalData), now) ==>
      o.world.calls == w.calls + [Download(ticker, start, end)]
    // a fresh hit returns what is cached and writes nothing
    ensures Fresh(w.files, CachePath(ticker, HistoricalData), now) ==>
      o.world.files == w.files &&
      o.result == (if Load(w.files, CachePath(ticker, HistoricalData)).Ok?
                   then Load(w.files, CachePath(ticker, HistoricalData)).value else EmptyResult)
    // at most the historical key is written, and only with the value returned
    ensures o.world.files == w.files ||
      o.world.files == Save(w.files, CachePath(ticker, HistoricalData), o.result, now)
    // nothing that is not a non-empty table is ever written
    ensures o.world.files != w.files ==> o.result.Table? && !o.result.frame.IsEmpty()
    // the answer of a download that was made decides the rest
    ensures !Fresh(w.files, CachePath(ticker, HistoricalData), now) ==>
      var reply := respond(Download(ticker, start, end), |w.calls|);
      if reply.Returned? && reply.v.Table? && !reply.v.frame.IsEmpty()
      then o.result == reply.v && o.world.files == Save(w.files, CachePath(ticker, HistoricalData), reply.v, now)
      else o.result == EmptyResult && o.world.files == w.files
  {
    var path := CachePath(ticker, HistoricalData);
    var dirs := WithTickerDir(w.dirs, ticker);
    if Fresh(w.files, path, now) then
      var r := Load(w.files, path);
      Outcome(if r.Ok? then r.value else EmptyResult, World(w.files, dirs, w.calls))
    else
      var q := Download(ticker, start, end);
      var calls := w.calls + [q];
      match respond(q, |w.calls|)
      case Returned(Table(f)) =>
        if f.IsEmpty() then Outcome(EmptyResult, World(w.files, dirs, calls))
        else Outcome(Table(f), World(Save(w.files, path, Table(f), now), dirs, calls))
      case _ => Outcome(EmptyResult, World(w.files, dirs, calls))
  }

  /**
   * One of the eight document fetches.  A fresh artifact is loaded and an
   * unreadable one lets the unpickling error through.  Otherwise the attribute
   * is read from the provider; an exception escapes, and so does the
   * AttributeError of DataFrame.to_pickle when a DataFrame is expected and
   * something else came back.  Any other answer, empty or not, is stored and
   * returned.
   */
  function DocumentStep(doc: Document, w: World, respond: Oracle, ticker: string, now: int): (o: Outcome<Result<Value>>)
    ensures o.world.dirs == WithTickerDir(w.dirs, ticker)
    ensures Fresh(w.files, CachePath(ticker, Doc(doc)), now) ==>
      o.world.calls == w.calls && o.world.files == w.files &&
      o.result == Load(w.files, CachePath(ticker, Doc(doc)))
    ensures !Fresh(w.files, CachePath(ticker, Doc(doc)), now) ==>
      o.world.calls == w.calls + [Attribute(ticker, doc.Attribute())]
    // at most this document's key is written, and only with the value returned
    ensures o.world.files == w.files ||
      (o.result.Ok? && o.world.files == Save(w.files, CachePath(ticker, Doc(doc)), o.result.value, now))
    // on a miss every value that comes back is cached, empty or not; only exceptions are not
    ensures !Fresh(w.files, CachePath(ticker, Doc(doc)), now) ==>
      var reply := respond(Attribute(ticker, doc.Attribute()), |w.calls|);
      if reply.Raised? then o.result == Err(ProviderError) && o.world.files == w.files
      else if doc.SavedAsFrame() && !reply.v.Table? then o.result == Err(AttributeError) && o.world.files == w.files
      else o.result == Ok(reply.v) && o.world.files == Save(w.files, CachePath(ticker, Doc(doc)), reply.v, now)
  {
    var path := CachePath(ticker, Doc(doc));
    var dirs := WithTickerDir(w.dirs, ticker);
    if Fresh(w.files, path, now) then
      Outcome(Load(w.files, path), World(w.files, dirs, w.calls))
    else
      var q := Attribute(ticker, doc.Attribute());
      var calls := w.calls + [q];
      match respond(q, |w.calls|)
      case Raised => Outcome(Err(ProviderError), World(w.files, dirs, calls))
      case Returned(v) =>
        if doc.SavedAsFrame() && !v.Table? then Outcome(Err(AttributeError), World(w.files, dirs, calls))
        else Outcome(Ok(v), World(Save(w.files, path, v, now), dirs, calls))
  }

  // ---------------------------------------------------------------------------
  // Properties relating several fetches
  // ---------------------------------------------------------------------------

  /**
   * After a historical fetch that stored its download, any historical fetch
   * for the same ticker within one day returns the same value without
   * downloading or writing, whatever date range it asks for.
   */
  lemma HistoricalStoreThenHit(w: World, respond: Oracle, ticker: string, start: string, end: string, now: int,
                               start2: string, end2: string, later: int)
    requires HistoricalStep(w, respond, ticker, start, end, now).world.files != w.files
    requires later - now < TTL
    ensures var first := HistoricalStep(w, respond, ticker, start, end, now);
      var second := HistoricalStep(first.world, respond, ticker, start2, end2, later);
      second.result == first.result && second.world == first.world
  {
  }

  /** A fetch of one document never changes the entry of any other cache key. */
  lemma DocumentLeavesOtherKeys(doc: Document, w: World, respond: Oracle, ticker: string, now: int,
                                t2: string, k2: DataType)
    requires CachePath(t2, k2) != CachePath(ticker, Doc(doc))
    ensures var o := DocumentStep(doc, w, respond, ticker, now);
      (CachePath(t2, k2) in o.world.files <==> CachePath(t2, k2) in w.files) &&
      (CachePath(t2, k2) in w.files ==> o.world.files[CachePath(t2, k2)] == w.files[CachePath(t2, k2)])
  {
  }

  /**
   * After a document fetch that got an answer and stored it, a fetch of the
   * same document within one day returns that answer without calling the
   * provider or writing.
   */
  lemma DocumentStoreThenHit(doc: Document, w: World, respond: Oracle, ticker: string, now: int, later: int)
    requires !Fresh(w.files, CachePath(ticker, Doc(doc)), now)
    requires DocumentStep(doc, w, respond, ticker, now).result.Ok?
    requires later - now < TTL
    ensures var first := DocumentStep(doc, w, respond, ticker, now);
      var second := DocumentStep(doc, first.world, respond, ticker, later);
      second.result == first.result && second.world == first.world
  {
  }

  /** A sequence of historical fetches for one ticker and date range, at the given times. */
  function HistoricalRun(w: World, respond: Oracle, ticker: string, start: string, end: string, times: seq<int>): (o: Outcome<seq<Value>>)
    ensures |o.result| == |times|
    decreases |times|
  {
    if times == [] then Outcome([], w)
    else
      var first := HistoricalStep(w, respond, ticker, start, end, times[0]);
      var rest := HistoricalRun(first.world, respond, ticker, start, end, times[1..]);
      Outcome([first.result] + rest.result, rest.world)
  }

  /**
   * While a readable historical artifact stays fresh, every fetch returns it
   * and none calls the provider or writes: only the ticker directory is made sure of.
   */
  lemma {:induction false} FreshRunIsSilent(w: World, respond: Oracle, ticker: string, start: string, end: string,
                                            times: seq<int>, v: Value)
    requires CachePath(ticker, HistoricalData) in w.files
    requires w.files[CachePath(ticker, HistoricalData)].stored == Pickled(v)
    requires forall i :: 0 <= i < |times| ==> times[i] - w.files[CachePath(ticker, HistoricalData)].mtime < TTL
    ensures var o := HistoricalRun(w, respond, ticker, start, end, times);
      o.world == World(w.files, if times == [] then w.dirs else WithTickerDir(w.dirs, ticker), w.calls) &&
      forall i :: 0 <= i < |times| ==> o.result[i] == v
    decreases |times|
  {
    if times != [] {
      var first := HistoricalStep(w, respond, ticker, start, end, times[0]);
      assert first.world == World(w.files, WithTickerDir(w.dirs, ticker), w.calls);
      FreshRunIsSilent(first.world, respond, ticker, start, end, times[1..], v);
      WithTickerDirIdempotent(w.dirs, ticker);
      var rest := HistoricalRun(first.world, respond, ticker, start, end, times[1..]);
      var o := HistoricalRun(w, respond, ticker, start, end, times);
      assert o.world == rest.world;
      forall i | 0 <= i < |times| ensures o.result[i] == v {
        if i > 0 {
          assert o.result[i] == HistoricalRun(first.world, respond, ticker, start, end, times[1..]).result[i - 1];
        }
      }
    }
  }

  /**
   * Miss, then store: a first fetch that misses and downloads a non-empty
   * series, followed by any number of fetches within one day of it, calls the
   * provider exactly once, and every fetch returns the downloaded series.
   */
  lemma MissThenServedFromCache(w: World, respond: Oracle, ticker: string, start: string, end: string,
                                now: int, later: seq<int>, f: Frame)
    requires !Fresh(w.files, CachePath(ticker, HistoricalData), now)
    requires respond(Download(ticker, start, end), |w.calls|) == Returned(Table(f)) && !f.IsEmpty()
    requires forall i :: 0 <= i < |later| ==> later[i] - now < TTL
    ensures var o := HistoricalRun(w, respond, ticker, start, end, [now] + later);
      o.world.calls == w.calls + [Download(ticker, start, end)] &&
      o.world.files == Save(w.files, CachePath(ticker, HistoricalData), Table(f), now) &&
      forall i :: 0 <= i < |o.result| ==> o.result[i] == Table(f)
  {
    var first := HistoricalStep(w, respond, ticker, start, end, now);
    var path := CachePath(ticker, HistoricalData);
    assert first.world.files == Save(w.files, path, Table(f), now);
    LoadAfterSave(w.files, path, Table(f), now);
    FreshRunIsSilent(first.world, respond, ticker, start, end, later, Table(f));
    WithTickerDirIdempotent(w.dirs, ticker);
    var times := [now] + later;
    assert times[1..] == later;
    var o := HistoricalRun(w, respond, ticker, start, end, times);
    forall i | 0 <= i < |o.result| ensures o.result[i] == Table(f) {
      if i > 0 {
        assert o.result[i] == HistoricalRun(first.world, respond, ticker, start, end, later).result[i - 1];
      }
    }
  }

  // ---------------------------------------------------------------------------
  // The fetcher object
  // ---------------------------------------------------------------------------

  class StockDataFetcher {
    const disk: Disk
    const source: Provider

    /** The disk and the provider's log, seen together. */
    function Current(): World
      reads disk, source
    {
      World(disk.files, disk.dirs, source.calls)
    }

    /** Creates the cache root if it does not exist. */
    constructor (disk: Disk, source: Provider)
      modifies disk
      ensures this.disk == disk && this.source == source
      ensures disk.dirs == old(disk.dirs) + {CacheDir} && disk.files == old(disk.files)
    {
      this.disk := disk;
      this.source := source;
      new;
      var present := disk.DirExists(CacheDir);
      if !present {
        disk.MakeDirs(CacheDir);
      }
    }

    /** _get_cache_file_path: the key's file, after making sure of the ticker's directory. */
    method CacheFilePath(ticker: string, kind: DataType) returns (path: string)
      modifies disk
      ensures path == CachePath(ticker, kind)
      ensures disk.dirs == WithTickerDir(old(disk.dirs), ticker) && disk.files == old(disk.files)
    {
      var dir := Join(CacheDir, ticker);
      var present := disk.DirExists(dir);
      if !present {
        disk.MakeDirs(dir);
      }
      path := Join(dir, kind.Name() + ".pkl");
    }

    /** _is_cache_valid, with the clock reading passed in. */
    method IsCacheValid(path: string, now: int) returns (valid: bool)
      ensures valid <==> Fresh(disk.files, path, now)
    {
      var present := disk.FileExists(path);
      if !present {
        return false;
      }
      var lastModified := disk.ModifiedTime(path);
      valid := now - lastModified < TTL;
    }

    /** _save_df_to_cache. */
    method SaveDfToCache(path: string, data: Frame, now: int)
      modifies disk
      ensures disk.files == Save(old(disk.files), path, Table(data), now) && disk.dirs == old(disk.dirs)
    {
      disk.Write(path, Table(data), now);
    }

    /** _load_df_from_cache (pd.read_pickle returns whatever was pickled). */
    method LoadDfFromCache(path: string) returns (r: Result<Value>)
      ensures r == Load(disk.files, path)
    {
      r := disk.Read(path);
    }

    /** _save_dict_to_cache. */
    method SaveDictToCache(path: string, data: Value, now: int)
      modifies disk
      ensures disk.files == Save(old(disk.files), path, data, now) && disk.dirs == old(disk.dirs)
    {
      disk.Write(path, data, now);
    }

    /** _load_dict_from_cache. */
    method LoadDictFromCache(path: string) returns (r: Result<Value>)
      ensures r == Load(disk.files, path)
    {
      r := disk.Read(path);
    }

    /** fetch_historical_data: never raises; failures give the empty sentinel. */
    method FetchHistoricalData(ticker: string, start: string, end: string, now: int) returns (r: Value)
      modifies disk, source
      ensures Outcome(r, Current()) == HistoricalStep(old(Current()), source.respond, ticker, start, end, now)
    {
      var path := CacheFilePath(ticker, HistoricalData);
      var valid := IsCacheValid(path, now);
      if valid {
        var cached := LoadDfFromCache(path);
        return if cached.Ok? then cached.value else EmptyResult;
      }
      var data := source.Call(Download(ticker, start, end));
      if !(data.Returned? && data.v.Table?) {
        return EmptyResult;
      }
      if data.v.frame.IsEmpty() {
        return EmptyResult;
      }
      SaveDfToCache(path, data.v.frame, now);
      r := data.v;
    }

    /** The body shared by the eight document fetches. */
    method FetchDocument(doc: Document, ticker: string, now: int) returns (r: Result<Value>)
      modifies disk, source
      ensures Outcome(r, Current()) == DocumentStep(doc, old(Current()), source.respond, ticker, now)
    {
      var path := CacheFilePath(ticker, Doc(doc));
      var valid := IsCacheValid(path, now);
      if valid {
        if doc.SavedAsFrame() {
          r := LoadDfFromCache(path);
        } else {
          r := LoadDictFromCache(path);
        }
        return;
      }
      var answer := source.Call(Attribute(ticker, doc.Attribute()));
      if answer.Raised? {
        return Err(ProviderError);
      }
      if doc.SavedAsFrame() {
        if !answer.v.Table? {
          return Err(AttributeError);
        }
        SaveDfToCache(path, answer.v.frame, now);
      } else {
        SaveDictToCache(path, answer.v, now);
      }
      r := Ok(answer.v);
    }

    method FetchInfo(ticker: string, now: int) returns (r: Result<Value>)
      modifies disk, source
      ensures Outcome(r, Current()) == DocumentStep(Info, old(Current()), source.respond, ticker, now)
    {
      r := FetchDocument(Info, ticker, now);
    }

    method FetchBalanceSheet(ticker: string, now: int) returns (r: Result<Value>)
      modifies disk, source
      ensures Outcome(r, Current()) == DocumentStep(BalanceSheet, old(Current()), source.respond, ticker, now)
    {
      r := FetchDocument(BalanceSheet, ticker, now);
    }

    method FetchFinancials(ticker: string, now: int) returns (r: Result<Value>)
      modifies disk, source
      ensures Outcome(r, Current()) == DocumentStep(Financials, old(Current()), source.respond, ticker, now)
    {
      r := FetchDocument(Financials, ticker, now);
    }

    method FetchCashflow(ticker: string, now: int) returns (r: Result<Value>)
      modifies disk, source
      ensures Outcome(r, Current()) == DocumentStep(Cashflow, old(Current()), source.respond, ticker, now)
    {
      r := FetchDocument(Cashflow, ticker, now);
    }

    method FetchCalendar(ticker: string, now: int) returns (r: Result<Value>)
      modifies disk, source
      ensures Outcome(r, Current()) == DocumentStep(Calendar, old(Current()), source.respond, ticker, now)
    {
      r := FetchDocument(Calendar, ticker, now);
    }

    method FetchIncomeStatement(ticker: string, now: int) returns (r: Result<Value>)
      modifies disk, source
      ensures Outcome(r, Current()) == DocumentStep(IncomeStatement, old(Current()), source.respond, ticker, now)
    {
      r := FetchDocument(IncomeStatement, ticker, now);
    }

    method FetchRecommendations(ticker: string, now: int) returns (r: Result<Value>)
      modifies disk, source
      ensures Outcome(r, Current()) == DocumentStep(Recommendations, old(Current()), source.respond, ticker, now)
    {
      r := FetchDocument(Recommendations, ticker, now);
    }

    method FetchRecommendationsSummary(ticker: string, now: int) returns (r: Result<Value>)
      modifies disk, source
      ensures Outcome(r, Current()) == DocumentStep(RecommendationsSummary, old(Current()), source.respond, ticker, now)
    {
      r := FetchDocument(RecommendationsSummary, ticker, now);
    }
  }

  /**
   * A client of the fetcher: on an empty cache, two info fetches for one
   * ticker an hour apart against a provider that always answers
   * {marketCap: 100} make one call, and both return that answer.
   */
  method InfoMissThenHit(now: int)
  {
    var answer := Dict(map["marketCap" := Scalar(Num(100))]);
    var disk := new Disk(map[], {});
    var source := new Provider((q: Request, n: nat) => Returned(answer));
    var fetcher := new StockDataFetcher(disk, source);
    var first := fetcher.FetchInfo("AAPL", now);
    assert first == Ok(answer) && |source.calls| == 1;
    var second := fetcher.FetchInfo("AAPL", now + 3600);
    assert second == Ok(answer) && |source.calls| == 1;
  }
}
