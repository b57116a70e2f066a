/**
 * The world the fetchers run in: the payloads they pass around, the on-disk
 * cache (a map from path to pickled artifact and modification time, plus the
 * set of directories), the clock (an integer number of seconds passed in by
 * the caller) and the remote data provider (an oracle that answers each call,
 * with a log of the calls made so far).
 */
module Storage {

  /** timedelta(days=1), in seconds: the fixed time-to-live of every artifact. */
  const TTL: int := 24 * 60 * 60

  // ---------------------------------------------------------------------------
  // Payloads
  // ---------------------------------------------------------------------------

  /** One cell of a table; its contents are never inspected by the fetchers. */
  datatype Cell = Num(n: int) | Text(s: string) | Missing

  /** One row of a table: its index value and its cells, column by column. */
  datatype Row = Row(index: Cell, cells: seq<Cell>)

  /** A pandas DataFrame, kept abstract: an index name, column names and rows. */
  datatype Frame = Frame(indexName: string, columns: seq<string>, rows: seq<Row>) {
    /** DataFrame.empty: true as soon as either axis has length zero. */
    predicate IsEmpty() {
      |rows| == 0 || |columns| == 0
    }
  }

  /** pd.DataFrame(): no columns and no rows. */
  const EmptyFrame: Frame := Frame("", [], [])

  /** One (column, value) entry of a row record. */
  datatype Field = Field(name: string, value: Cell)

  /** Anything the fetchers receive from the provider or hand to pickle. */
  datatype Value =
    | Scalar(cell: Cell)
    | Table(frame: Frame)
    | FrameDict(origin: Frame)           // DataFrame.to_dict(): its layout is not modelled
    | Record(fields: seq<Field>)       // one row of DataFrame.to_dict(orient='records')
    | List(items: seq<Value>)
    | Dict(entries: map<string, Value>)

  // ---------------------------------------------------------------------------
  // Errors and results
  // ---------------------------------------------------------------------------

  datatype Error =
    | FileNotFound      // open() or read_pickle() of a path that does not exist
    | UnpicklingError   // the artifact is corrupt or in an incompatible format
    | ProviderError     // the provider raised (network failure, unknown ticker, ...)
    | AttributeError    // a DataFrame method applied to something that is not a DataFrame

  /** A value, or the exception that escaped instead. */
  datatype Result<T> = Ok(value: T) | Err(error: Error)

  // ---------------------------------------------------------------------------
  // The disk
  // ---------------------------------------------------------------------------

  /** The bytes of a pickle file: a value that unpickles, or garbage. */
  datatype Stored = Pickled(v: Value) | Unreadable

  /** A file of the cache: its contents and its modification time (seconds). */
  datatype Artifact = Artifact(stored: Stored, mtime: int)

  type Files = map<string, Artifact>

  /**
   * The freshness test shared by both fetchers: an artifact exists at the
   * path and the clock reading now lies less than one day past its
   * modification time.  Both readings are naive local wall-clock times
   * (datetime.fromtimestamp and datetime.now), counted in seconds.  An
   * artifact whose modification time lies in the future is fresh.
   */
  predicate Fresh(files: Files, path: string, now: int)
    ensures Fresh(files, path, now) ==> path in files
    ensures path in files && now <= files[path].mtime ==> Fresh(files, path, now)
  {
    path in files && now - files[path].mtime < TTL
  }

  lemma FreshnessCutoff(files: Files, path: string, now: int)
    ensures path !in files ==> !Fresh(files, path, now)
    ensures path in files ==>
      (Fresh(files, path, now) <==> now < files[path].mtime + TTL)
    ensures path in files ==>
      Fresh(files, path, files[path].mtime + TTL - 1) && !Fresh(files, path, files[path].mtime + TTL)
  {
  }

  /** pickle.load / pd.read_pickle of the file at path. */
  function Load(files: Files, path: string): (r: Result<Value>)
    ensures r.Ok? <==> path in files && files[path].stored.Pickled?
    ensures r.Ok? ==> files[path].stored == Pickled(r.value)
    ensures path !in files ==> r == Err(FileNotFound)
    ensures path in files && files[path].stored.Unreadable? ==> r == Err(UnpicklingError)
  {
    if path !in files then Err(FileNotFound)
    else match files[path].stored
      case Pickled(v) => Ok(v)
      case Unreadable => Err(UnpicklingError)
  }

  /** pickle.dump / DataFrame.to_pickle of v to path at time now. */
  function Save(files: Files, path: string, v: Value, now: int): (r: Files)
    ensures r.Keys == files.Keys + {path}
    ensures forall q :: q in files && q != path ==> r[q] == files[q]
  {
    files[path := Artifact(Pickled(v), now)]
  }

  /** Saving and then loading a path gives back the saved value, and the save makes the artifact fresh. */
  lemma LoadAfterSave(files: Files, path: string, v: Value, now: int)
    ensures Load(Save(files, path, v, now), path) == Ok(v)
    ensures Save(files, path, v, now)[path].mtime == now
    ensures forall later :: now <= later < now + TTL ==> Fresh(Save(files, path, v, now), path, later)
  {
  }

  /** os.path.join for two components, POSIX rules. */
  predicate IsAbsolute(p: string) {
    |p| > 0 && p[0] == '/'
  }

  function Join(a: string, b: string): string {
    if IsAbsolute(b) then b
    else if a == "" || a[|a| - 1] == '/' then a + b
    else a + "/" + b
  }

  /**
   * An absolute second component replaces the first; otherwise the result
   * starts with a, ends with b and has at most one '/' added between them,
   * which is there exactly when a is non-empty and does not end in '/'.
   */
  lemma JoinShape(a: string, b: string)
    ensures IsAbsolute(b) ==> Join(a, b) == b
    ensures !IsAbsolute(b) ==>
      var r := Join(a, b);
      |a| + |b| <= |r| <= |a| + |b| + 1 && r[..|a|] == a && r[|r| - |b|..] == b &&
      (|r| == |a| + |b| + 1 <==> a != "" && a[|a| - 1] != '/') &&
      (|r| == |a| + |b| + 1 ==> r[|a|] == '/')
  {
  }

  /** The part os.path.join puts in front of a relative second component. */
  function JoinPrefix(a: string): string {
    if a == "" || a[|a| - 1] == '/' then a else a + "/"
  }

  lemma JoinRelative(a: string, b: string)
    requires !IsAbsolute(b)
    ensures Join(a, b) == JoinPrefix(a) + b
  {
  }

  /** Joining one directory with two different relative names gives two different paths. */
  lemma JoinInjective(a: string, b1: string, b2: string)
    requires !IsAbsolute(b1) && !IsAbsolute(b2)
    requires Join(a, b1) == Join(a, b2)
    ensures b1 == b2
  {
    JoinRelative(a, b1);
    JoinRelative(a, b2);
    CancelPrefix(JoinPrefix(a), b1, b2);
  }

  lemma CancelPrefix(p: string, x: string, y: string)
    requires p + x == p + y
    ensures x == y
  {
    assert x == (p + x)[|p|..];
    assert y == (p + y)[|p|..];
  }

  lemma CancelSuffix(x: string, y: string, s: string)
    requires x + s == y + s
    ensures x == y
  {
    assert x == (x + s)[..|x|];
    assert y == (y + s)[..|y|];
  }

  /** The first '/' of a + "/" + b, when a has none, is right after a. */
  lemma SplitAtFirstSlash(a: string, b: string, c: string, d: string)
    requires forall i :: 0 <= i < |a| ==> a[i] != '/'
    requires forall i :: 0 <= i < |c| ==> c[i] != '/'
    requires a + "/" + b == c + "/" + d
    ensures a == c && b == d
  {
    var s := a + "/" + b;
    if |a| < |c| {
      SlashAfter(a, b);
      PrefixChars(c, d);
      assert false;
    } else if |c| < |a| {
      SlashAfter(c, d);
      PrefixChars(a, b);
      assert false;
    }
    assert a == s[..|a|];
    assert c == (c + "/" + d)[..|c|];
    assert b == s[|a| + 1..];
    assert d == (c + "/" + d)[|c| + 1..];
  }

  lemma SlashAfter(a: string, b: string)
    ensures |a + "/" + b| > |a| && (a + "/" + b)[|a|] == '/'
  {
  }

  lemma PrefixChars(a: string, b: string)
    ensures forall i :: 0 <= i < |a| ==> (a + "/" + b)[i] == a[i]
  {
  }

  /** The file system as the fetchers see it. */
  class Disk {
    var files: Files
    var dirs: set<string>

    constructor (files: Files, dirs: set<string>)
      ensures this.files == files && this.dirs == dirs
    {
      this.files := files;
      this.dirs := dirs;
    }

    /** os.path.exists for a directory. */
    method DirExists(path: string) returns (b: bool)
      ensures b <==> path in dirs
    {
      b := path in dirs;
    }

    /** os.makedirs. */
    method MakeDirs(path: string)
      modifies this
      ensures dirs == old(dirs) + {path} && files == old(files)
    {
      dirs := dirs + {path};
    }

    /** os.path.exists for a file. */
    method FileExists(path: string) returns (b: bool)
      ensures b <==> path in files
    {
      b := path in files;
    }

    /** os.path.getmtime. */
    method ModifiedTime(path: string) returns (t: int)
      requires path in files
      ensures t == files[path].mtime
    {
      t := files[path].mtime;
    }

    /** Writes a pickle of v to path; the file's modification time becomes now. */
    method Write(path: string, v: Value, now: int)
      modifies this
      ensures files == Save(old(files), path, v, now) && dirs == old(dirs)
    {
      files := files[path := Artifact(Pickled(v), now)];
    }

    /** Reads and unpickles the file at path. */
    method Read(path: string) returns (r: Result<Value>)
      ensures r == Load(files, path)
    {
      if path !in files {
        r := Err(FileNotFound);
      } else if files[path].stored.Unreadable? {
        r := Err(UnpicklingError);
      } else {
        r := Ok(files[path].stored.v);
      }
    }
  }

  // ---------------------------------------------------------------------------
  // The remote provider
  // ---------------------------------------------------------------------------

  /** One outbound call: yf.download, or reading one attribute of yf.Ticker(ticker). */
  datatype Request =
    | Download(ticker: string, start: string, end: string)
    | Attribute(ticker: string, name: string)

  /** What one call gives back: a value, or an exception. */
  datatype Reply = Returned(v: Value) | Raised

  /** The provider's behaviour: the answer to a request, given how many calls came before it. */
  type Oracle = (Request, nat) -> Reply

  /** The provider, with a log of every call made to it. */
  class Provider {
    const respond: Oracle
    var calls: seq<Request>

    constructor (respond: Oracle)
      ensures this.respond == respond && calls == []
    {
      this.respond := respond;
      calls := [];
    }

    method Call(q: Request) returns (a: Reply)
      modifies this
      ensures calls == old(calls) + [q]
      ensures a == respond(q, |old(calls)|)
    {
      a := respond(q, |calls|);
      calls := calls + [q];
    }
  }

  // ---------------------------------------------------------------------------
  // Whole-state view used by the specifications of the fetch operations
  // ---------------------------------------------------------------------------

  /** The disk's files and directories together with the provider's call log. */
  datatype World = World(files: Files, dirs: set<string>, calls: seq<Request>)

  /** What one fetch returns and the world it leaves behind. */
  datatype Outcome<R> = Outcome(result: R, world: World)
}
