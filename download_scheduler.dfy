/** The scheduled download script (scripts/download_futures_data.py): the download
    configuration with its defaults and the user's file laid over them, updates of known
    keys, the retry loop around one product's download, the batch loop over the products,
    and the exit code.

    The configuration file is a text in a FileStore, `parse` is json.load on that text
    (None when it raises) and `dump` is json.dump. The download of one product is the
    parameter `download(symbol, update_mode, attempt)`: what download_symbol_data
    returns, or raises, on that attempt. */
module DownloadScheduler {
  import opened Wrappers
  import opened Json
  import opened Dicts
  import opened Platform
  import opened FuturesConfig
  import opened Downloader

  /** load_config's default_config. */
  const DefaultConfig: map<string, Value> := map[
    "enabled_symbols" := Arr([Str("rb"), Str("hc"), Str("i"), Str("j"), Str("jm"), Str("cu"), Str("al"), Str("zn")]),
    "download_mode" := Str("priority"),
    "data_range_days" := Int(30),
    "update_mode" := Str("incremental"),
    "batch_size" := Int(5),
    "retry_times" := Int(3),
    "retry_delay" := Int(60),
    "log_level" := Str("INFO"),
    "notification" := Obj(map["enabled" := Bool(false), "email" := Bool(true), "feishu" := Bool(false)])
  ]

  /** Every default key is present, so every self.config[...] lookup finds its key. */
  predicate HasDefaults(config: map<string, Value>) {
    DefaultConfig.Keys <= config.Keys
  }

  // ------------------------------------------------------------ load_config

  /** What json.load gives for the user's file, when the file exists and is JSON. */
  function UserFile(files: map<string, string>, path: string, parse: string -> Option<Value>): Option<Value> {
    if path in files then parse(files[path]) else None
  }

  /** The user's settings: the file exists and json.load gives an object. */
  function UserConfig(files: map<string, string>, path: string, parse: string -> Option<Value>)
    : Option<map<string, Value>>
  {
    var u := UserFile(files, path, parse);
    if u.Some? && u.value.Obj? then Some(u.value.fields) else None
  }

  /** What dict.update does with one element of an iterable of pairs: a pair with a text
      key sets that key (a two-character text is such a pair), a pair with another
      hashable key sets a key no text lookup finds, and anything else raises. */
  datatype UpdateItem = SetKey(key: string, value: Value) | OtherKey | Stops

  predicate SetsKey(u: UpdateItem, k: string) {
    u.SetKey? && u.key == k
  }

  function UpdateItemOf(item: Value): (u: UpdateItem)
    ensures u.SetKey? <==> (item.Arr? && |item.items| == 2 && item.items[0].Str?) || (item.Str? && |item.s| == 2)
  {
    match item
    case Arr(xs) =>
      if |xs| != 2 then Stops
      else (match xs[0]
            case Str(k) => SetKey(k, xs[1])
            case Arr(_) => Stops
            case Obj(_) => Stops
            case _ => OtherKey)
    case Str(t) => if |t| == 2 then SetKey([t[0]], Str([t[1]])) else Stops
    case _ => Stops
  }

  /** c.update(items) for a JSON array: the pairs in order, until an element raises; the
      pairs before it stay applied, since update works on c in place. */
  function UpdatedWith(c: map<string, Value>, items: seq<Value>): (r: map<string, Value>)
    ensures c.Keys <= r.Keys
    decreases |items|
  {
    if items == [] then c
    else
      match UpdateItemOf(items[0])
      case SetKey(k, v) => UpdatedWith(c[k := v], items[1..])
      case OtherKey => UpdatedWith(c, items[1..])
      case Stops => c
  }

  /** A key that no element sets keeps its value, present or absent. */
  lemma {:induction false} UpdatedKeeps(c: map<string, Value>, items: seq<Value>, k: string)
    requires forall i :: 0 <= i < |items| ==> !SetsKey(UpdateItemOf(items[i]), k)
    ensures k in UpdatedWith(c, items) <==> k in c
    ensures k in c ==> UpdatedWith(c, items)[k] == c[k]
    decreases |items|
  {
    if items != [] {
      forall i | 0 <= i < |items| - 1
        ensures !SetsKey(UpdateItemOf(items[1..][i]), k)
      {
        assert items[1..][i] == items[i + 1];
      }
      var u := UpdateItemOf(items[0]);
      assert !SetsKey(u, k);
      match u
      case SetKey(k', v) => UpdatedKeeps(c[k' := v], items[1..], k);
      case OtherKey => UpdatedKeeps(c, items[1..], k);
      case Stops =>
    }
  }

  /** The last pair that sets a key decides its value, provided no element up to it
      raises. */
  lemma {:induction false} UpdatedLast(c: map<string, Value>, items: seq<Value>, j: nat)
    requires j < |items| && UpdateItemOf(items[j]).SetKey?
    requires forall i :: 0 <= i <= j ==> !UpdateItemOf(items[i]).Stops?
    requires forall i :: j < i < |items| ==> !SetsKey(UpdateItemOf(items[i]), UpdateItemOf(items[j]).key)
    ensures var u := UpdateItemOf(items[j]);
            u.key in UpdatedWith(c, items) && UpdatedWith(c, items)[u.key] == u.value
    decreases j
  {
    var rest := items[1..];
    var u := UpdateItemOf(items[j]);
    assert !UpdateItemOf(items[0]).Stops?;
    if j == 0 {
      forall i | 0 <= i < |rest| ensures !SetsKey(UpdateItemOf(rest[i]), u.key) {
        assert rest[i] == items[i + 1];
      }
      UpdatedKeeps(c[u.key := u.value], rest, u.key);
    } else {
      assert rest[j - 1] == items[j];
      forall i | 0 <= i <= j - 1 ensures !UpdateItemOf(rest[i]).Stops? {
        assert rest[i] == items[i + 1];
      }
      forall i | j - 1 < i < |rest| ensures !SetsKey(UpdateItemOf(rest[i]), u.key) {
        assert rest[i] == items[i + 1];
      }
      match UpdateItemOf(items[0])
      case SetKey(k', v') => UpdatedLast(c[k' := v'], rest, j - 1);
      case OtherKey => UpdatedLast(c, rest, j - 1);
    }
  }

  /** The first element that raises ends the update: nothing after it is applied. */
  lemma {:induction false} UpdatedStops(c: map<string, Value>, items: seq<Value>, j: nat)
    requires j < |items| && UpdateItemOf(items[j]).Stops?
    ensures UpdatedWith(c, items) == UpdatedWith(c, items[..j + 1])
    decreases j
  {
    if j > 0 {
      assert items[1..][..j] == items[..j + 1][1..];
      assert items[1..][j - 1] == items[j];
      match UpdateItemOf(items[0])
      case SetKey(k, v) => UpdatedStops(c[k := v], items[1..], j - 1);
      case OtherKey => UpdatedStops(c, items[1..], j - 1);
      case Stops =>
    }
  }

  /** [["batch_size", 10]] sets the batch size, and ["ab"] sets "a" to "b". */
  lemma PairListExamples()
    ensures UpdatedWith(DefaultConfig, [Arr([Str("batch_size"), Int(10)])])["batch_size"] == Int(10)
    ensures UpdatedWith(DefaultConfig, [Str("ab")])["a"] == Str("b")
    ensures UpdatedWith(DefaultConfig, []) == DefaultConfig
  {
    assert ["ab"[0]] == "a" && ["ab"[1]] == "b";
  }

  /** What load_config returns: default_config.update(user_config) for an object or an
      array of pairs, and the defaults when there is no file, it is not JSON, or update
      raises at once. */
  function LoadedConfig(files: map<string, string>, path: string, parse: string -> Option<Value>)
    : (c: map<string, Value>)
    ensures HasDefaults(c)
  {
    match UserFile(files, path, parse)
    case Some(Obj(user)) => DefaultConfig + user
    case Some(Arr(items)) => UpdatedWith(DefaultConfig, items)
    case _ => DefaultConfig
  }

  /** User keys override the defaults, default keys the user leaves out are kept, and no
      other key appears. */
  lemma LoadedConfigMerge(files: map<string, string>, path: string, parse: string -> Option<Value>, k: string)
    ensures UserConfig(files, path, parse).Some? && k in UserConfig(files, path, parse).value ==>
              k in LoadedConfig(files, path, parse)
              && LoadedConfig(files, path, parse)[k] == UserConfig(files, path, parse).value[k]
    ensures !IsPairList(UserFile(files, path, parse))
            && (UserConfig(files, path, parse).None? || k !in UserConfig(files, path, parse).value) ==>
              (k in LoadedConfig(files, path, parse) <==> k in DefaultConfig)
              && (k in DefaultConfig ==> LoadedConfig(files, path, parse)[k] == DefaultConfig[k])
  {
  }

  /** The user's JSON is an array, which update reads as pairs. */
  predicate IsPairList(u: Option<Value>) {
    u.Some? && u.value.Arr?
  }

  /** An array of pairs in the user's file: the last pair setting a key decides it, as
      long as no element up to it raises; a default key no pair sets keeps its default. */
  lemma LoadedConfigPairs(files: map<string, string>, path: string, parse: string -> Option<Value>,
                          items: seq<Value>, j: nat, k: string)
    requires UserFile(files, path, parse) == Some(Arr(items))
    ensures j < |items| && UpdateItemOf(items[j]).SetKey?
            && (forall i :: 0 <= i <= j ==> !UpdateItemOf(items[i]).Stops?)
            && (forall i :: j < i < |items| ==> !SetsKey(UpdateItemOf(items[i]), UpdateItemOf(items[j]).key))
            ==> UpdateItemOf(items[j]).key in LoadedConfig(files, path, parse)
                && LoadedConfig(files, path, parse)[UpdateItemOf(items[j]).key] == UpdateItemOf(items[j]).value
    ensures (forall i :: 0 <= i < |items| ==> !SetsKey(UpdateItemOf(items[i]), k)) && k in DefaultConfig
            ==> LoadedConfig(files, path, parse)[k] == DefaultConfig[k]
  {
    if j < |items| && UpdateItemOf(items[j]).SetKey?
       && (forall i :: 0 <= i <= j ==> !UpdateItemOf(items[i]).Stops?)
       && (forall i :: j < i < |items| ==> !SetsKey(UpdateItemOf(items[i]), UpdateItemOf(items[j]).key)) {
      UpdatedLast(DefaultConfig, items, j);
    }
    if forall i :: 0 <= i < |items| ==> !SetsKey(UpdateItemOf(items[i]), k) {
      UpdatedKeeps(DefaultConfig, items, k);
    }
  }

  // ------------------------------------------------------------ download_with_retry

  /** What one call of download_symbol_data does: raise, or return its results dict. */
  datatype Attempt = Raised | Returned(results: Dict<string, bool>)

  /** success_count > 0. */
  predicate Succeeded(a: Attempt) {
    a.Returned? && CountTrue(a.results) > 0
  }

  /** A JSON value as `v + 1` and range() take it: an int, or a bool as 0 or 1. */
  function AsInt(v: Value): Option<int> {
    match v
    case Int(i) => Some(i)
    case Bool(b) => Some(if b then 1 else 0)
    case _ => None
  }

  /** time.sleep(v) returns, rather than raising, for a non-negative number. */
  predicate SleepReturns(v: Value) {
    match v
    case Int(i) => i >= 0
    case Bool(_) => true
    case Float(r) => r >= 0.0
    case _ => false
  }

  /** The number of attempts, len(range(max_retries + 1)), with max_retries defaulting to
      retry_times; None when that raises TypeError. */
  function Tries(config: map<string, Value>, maxRetries: Option<int>): (n: Option<nat>)
    requires HasDefaults(config)
  {
    var m := if maxRetries.Some? then maxRetries else AsInt(config["retry_times"]);
    if m.None? then None else Some(if m.value + 1 > 0 then m.value + 1 else 0)
  }

  /** Attempt a reaches the downloader (the first one always, a retry when its sleep
      returns) and the downloader reports at least one contract downloaded. */
  predicate Wins(config: map<string, Value>, symbol: string, a: nat, download: (string, Value, nat) -> Attempt)
    requires HasDefaults(config)
  {
    (a == 0 || SleepReturns(config["retry_delay"])) && Succeeded(download(symbol, config["update_mode"], a))
  }

  /** Some attempt within the allowed number wins. */
  ghost predicate Retried(config: map<string, Value>, symbol: string, maxRetries: Option<int>,
                          download: (string, Value, nat) -> Attempt)
    requires HasDefaults(config)
  {
    Tries(config, maxRetries).Some? && exists a :: 0 <= a < Tries(config, maxRetries).value && Wins(config, symbol, a, download)
  }

  // ------------------------------------------------------------ run_download

  /** get_futures_info(symbol) is not empty: the product is in the table. */
  predicate Known(products: map<string, FuturesInfo>, symbol: string) {
    symbol in products
  }

  /** The product list as texts: the argument, or enabled_symbols from the configuration
      when it is an array of texts or a text, which is iterated character by character as
      Python does. Any other value is the TypeError case; run_download only reaches it
      with a non-empty range of batches. */
  function SymbolList(symbols: Option<seq<string>>, config: map<string, Value>): (r: Result<seq<string>>)
    requires HasDefaults(config)
    ensures symbols.Some? ==> r == Ok(symbols.value)
  {
    if symbols.Some? then Ok(symbols.value)
    else
      match config["enabled_symbols"]
      case Arr(items) =>
        if forall i :: 0 <= i < |items| ==> items[i].Str? then Ok(seq(|items|, i requires 0 <= i < |items| => items[i].s))
        else Err(TypeError)
      case Str(s) => Ok(seq(|s|, i requires 0 <= i < |s| => [s[i]]))
      case _ => Err(TypeError)
  }

  /** len(symbols): the length of the given list, or of enabled_symbols when it is an
      array, a text or an object; None when len() raises TypeError. */
  function SymbolCount(symbols: Option<seq<string>>, config: map<string, Value>): (n: Option<nat>)
    requires HasDefaults(config)
    ensures SymbolList(symbols, config).Ok? ==> n == Some(|SymbolList(symbols, config).value|)
  {
    if symbols.Some? then Some(|symbols.value|)
    else
      match config["enabled_symbols"]
      case Arr(items) => Some(|items|)
      case Str(t) => Some(|t|)
      case Obj(fields) => Some(|fields|)
      case _ => None
  }

  /** The step of range(0, len(symbols), batch_size): a zero step raises ValueError, a
      value that is not an int TypeError. */
  function BatchStep(config: map<string, Value>): (r: Result<int>)
    requires HasDefaults(config)
    ensures r.Ok? ==> r.value != 0
  {
    match AsInt(config["batch_size"])
    case None => Err(TypeError)
    case Some(b) => if b == 0 then Err(ValueError) else Ok(b)
  }

  /** The result recorded for one product: False when it is unknown, else whether the
      retry loop succeeds. */
  ghost predicate Outcome(config: map<string, Value>, products: map<string, FuturesInfo>, symbol: string,
                          download: (string, Value, nat) -> Attempt)
    requires HasDefaults(config)
  {
    Known(products, symbol) && Retried(config, symbol, None, download)
  }

  ghost function Outcomes(config: map<string, Value>, products: map<string, FuturesInfo>, syms: seq<string>,
                          download: (string, Value, nat) -> Attempt)
    : (bs: seq<bool>)
    requires HasDefaults(config)
    ensures |bs| == |syms|
  {
    seq(|syms|, i requires 0 <= i < |syms| => Outcome(config, products, syms[i], download))
  }

  /** The results dict holds, for a symbol, the outcome of its last occurrence in the
      list. */
  lemma RecordedResult(config: map<string, Value>, products: map<string, FuturesInfo>, syms: seq<string>,
                       download: (string, Value, nat) -> Attempt, i: nat)
    requires HasDefaults(config) && i < |syms| && syms[i] !in syms[i + 1..]
    ensures syms[i] in Keys(FromPairs(syms, Outcomes(config, products, syms, download)))
    ensures Get(FromPairs(syms, Outcomes(config, products, syms, download)), syms[i])
         == (Known(products, syms[i]) && Retried(config, syms[i], None, download))
  {
    FromPairsGet(syms, Outcomes(config, products, syms, download), i);
  }

  /** The number of True values. */
  function CountOf(bs: seq<bool>): (n: nat)
    ensures n <= |bs|
  {
    if bs == [] then 0 else CountOf(bs[..|bs| - 1]) + (if bs[|bs| - 1] then 1 else 0)
  }

  lemma CountOfWhole(bs: seq<bool>)
    ensures CountOf(bs[..|bs|]) == CountOf(bs)
  {
    assert bs[..|bs|] == bs;
  }

  lemma CountOfStep(bs: seq<bool>, p: nat)
    requires p < |bs|
    ensures CountOf(bs[..p + 1]) == CountOf(bs[..p]) + (if bs[p] then 1 else 0)
  {
    assert bs[..p + 1][..p] == bs[..p];
  }

  // ------------------------------------------------------------ main

  /** sys.exit(0 if success_count > 0 else 1); an exception escaping run_download ends the
      interpreter with status 1. */
  function ExitCode(r: Result<Dict<string, bool>>): (code: int)
    ensures code == 0 || code == 1
    ensures code == 0 <==> r.Ok? && exists i :: 0 <= i < |r.value| && r.value[i].1
  {
    if r.Err? then 1
    else
      CountTruePositive(r.value);
      if CountTrue(r.value) > 0 then 0 else 1
  }

  // ------------------------------------------------------------ the scheduler

  class FuturesDataScheduler {
    const configFile: string
    /** FUTURES_INFO, the table get_futures_info looks products up in. */
    const products: map<string, FuturesInfo>
    var config: map<string, Value>
    const downloader: FuturesDataDownloader

    ghost predicate Valid()
      reads this
    {
      HasDefaults(config)
    }

    /** __init__: loads the configuration, creating the file with the defaults when it
        does not exist. */
    constructor (configFile: string, fs: FileStore, parse: string -> Option<Value>, dump: Value -> string)
      modifies fs
      ensures this.configFile == configFile && products == FuturesInfoTable && Valid()
      ensures config == LoadedConfig(old(fs.files), configFile, parse)
      ensures fs.files == if configFile in old(fs.files) || configFile in old(fs.readOnly) then old(fs.files)
                          else old(fs.files)[configFile := dump(Obj(DefaultConfig))]
      ensures fs.readOnly == old(fs.readOnly)
      ensures fresh(downloader) && !downloader.database && !downloader.tqApi
    {
      this.configFile := configFile;
      products := FuturesInfoTable;
      downloader := new FuturesDataDownloader();
      config := DefaultConfig;
      new;
      config := LoadConfig(fs, parse, dump);
    }

    /** load_config: the defaults updated with the user's object or array of pairs; a file
        that is missing is created with the defaults, one that fails to load leaves them. */
    method LoadConfig(fs: FileStore, parse: string -> Option<Value>, dump: Value -> string)
      returns (c: map<string, Value>)
      modifies fs
      ensures c == LoadedConfig(old(fs.files), configFile, parse)
      ensures fs.files == if configFile in old(fs.files) || configFile in old(fs.readOnly) then old(fs.files)
                          else old(fs.files)[configFile := dump(Obj(DefaultConfig))]
      ensures fs.readOnly == old(fs.readOnly)
    {
      c := DefaultConfig;
      if configFile in fs.files {
        var loaded := parse(fs.files[configFile]);
        if loaded.Some? && loaded.value.Obj? {
          c := c + loaded.value.fields;
        } else if loaded.Some? && loaded.value.Arr? {
          c := UpdatedWith(c, loaded.value.items);
        }
      } else {
        SaveConfig(Some(c), fs, dump);
      }
    }

    /** save_config: writes the given configuration, or self.config; a failed write is
        caught and reported. */
    method SaveConfig(given: Option<map<string, Value>>, fs: FileStore, dump: Value -> string)
      modifies fs
      ensures fs.files == if configFile in old(fs.readOnly) then old(fs.files)
                          else old(fs.files)[configFile := dump(Obj(given.GetOr(config)))]
      ensures fs.readOnly == old(fs.readOnly)
    {
      var c := given.GetOr(config);
      var _ := fs.Write(configFile, dump(Obj(c)));
    }

    /** update_config: each keyword that names a key already present replaces its value;
        unknown keywords are ignored; then the configuration is saved. */
    method UpdateConfig(kwargs: map<string, Value>, fs: FileStore, dump: Value -> string)
      modifies this, fs
      ensures config.Keys == old(config).Keys
      ensures forall k :: k in config ==> config[k] == if k in kwargs then kwargs[k] else old(config)[k]
      ensures old(Valid()) ==> Valid()
      ensures fs.files == if configFile in old(fs.readOnly) then old(fs.files)
                          else old(fs.files)[configFile := dump(Obj(config))]
      ensures fs.readOnly == old(fs.readOnly)
    {
      var pending := kwargs.Keys;
      while pending != {}
        invariant pending <= kwargs.Keys
        invariant config.Keys == old(config).Keys && unchanged(fs)
        invariant forall k :: k in config ==>
                    config[k] == if k in kwargs && k !in pending then kwargs[k] else old(config)[k]
        decreases |pending|
      {
        var key :| key in pending;
        if key in config {
          config := config[key := kwargs[key]];
        }
        pending := pending - {key};
      }
      SaveConfig(None, fs, dump);
    }

    /** download_with_retry: up to max_retries + 1 attempts, sleeping retry_delay before
        each one after the first; True at the first attempt whose results hold a success.
        An exception in an attempt is caught and the next attempt follows. Returns the
        number of attempts started, of downloader calls and of sleeps. */
    method DownloadWithRetry(symbol: string, maxRetries: Option<int>, download: (string, Value, nat) -> Attempt)
      returns (r: Result<bool>, tried: nat, calls: nat, sleeps: nat)
      requires Valid()
      ensures r.Err? <==> Tries(config, maxRetries).None?
      ensures r.Err? ==> r.error == TypeError && tried == 0
      ensures r.Ok? ==> tried <= Tries(config, maxRetries).value && calls <= Tries(config, maxRetries).value
      ensures r.Ok? ==> (r.value <==> Retried(config, symbol, maxRetries, download))
      ensures r == Ok(true) ==> tried >= 1 && Wins(config, symbol, tried - 1, download)
      ensures r.Ok? ==> forall a :: 0 <= a < tried - 1 ==> !Wins(config, symbol, a, download)
      ensures r == Ok(false) ==> tried == Tries(config, maxRetries).value
      ensures sleeps == if tried == 0 then 0 else tried - 1
      ensures calls == if tried == 0 then 0 else if SleepReturns(config["retry_delay"]) then tried else 1
    {
      tried, calls, sleeps := 0, 0, 0;
      var n := Tries(config, maxRetries);
      if n.None? {
        return Err(TypeError), tried, calls, sleeps;
      }
      for attempt := 0 to n.value
        invariant tried == attempt
        invariant sleeps == if attempt == 0 then 0 else attempt - 1
        invariant calls == if attempt == 0 then 0 else if SleepReturns(config["retry_delay"]) then attempt else 1
        invariant forall a :: 0 <= a < attempt ==> !Wins(config, symbol, a, download)
      {
        tried := tried + 1;
        var reached := true;
        if attempt > 0 {
          sleeps := sleeps + 1;
          // time.sleep raises on a negative or non-numeric delay; the except clause catches it
          reached := SleepReturns(config["retry_delay"]);
        }
        if reached {
          calls := calls + 1;
          var results := download(symbol, config["update_mode"], attempt);
          if results.Returned? && CountTrue(results.results) > 0 {
            assert Wins(config, symbol, attempt, download);
            return Ok(true), tried, calls, sleeps;
          }
        }
      }
      return Ok(false), tried, calls, sleeps;
    }

    /** The body of the inner loop for one product: an unknown product is recorded False
        without calling the downloader. */
    method DownloadOne(symbol: string, download: (string, Value, nat) -> Attempt)
      returns (r: Result<bool>, calls: nat)
      requires Valid()
      ensures !Known(products, symbol) ==> r == Ok(false) && calls == 0
      ensures Known(products, symbol) ==> (r.Err? <==> Tries(config, None).None?)
      ensures r.Err? ==> r.error == TypeError
      ensures r.Ok? ==> (r.value <==> Outcome(config, products, symbol, download))
    {
      if symbol !in products {
        return Ok(false), 0;
      }
      var tried, sleeps;
      r, tried, calls, sleeps := DownloadWithRetry(symbol, None, download);
    }

    /** The batch loops of run_download for a positive batch size: the products in order,
        batch_size of them at a time, each result stored under its product. A TypeError
        from retry_times escapes at the first known product. */
    method DownloadBatches(syms: seq<string>, batchSize: nat, download: (string, Value, nat) -> Attempt)
      returns (r: Result<Dict<string, bool>>, successCount: nat)
      requires Valid() && batchSize > 0
      ensures r.Err? <==> Tries(config, None).None? && exists i :: 0 <= i < |syms| && Known(products, syms[i])
      ensures r.Err? ==> r.error == TypeError
      ensures r.Ok? ==> r.value == FromPairs(syms, Outcomes(config, products, syms, download))
      ensures r.Ok? ==> successCount == CountOf(Outcomes(config, products, syms, download))
    {
      var results: Dict<string, bool> := [];
      successCount := 0;
      var i := 0;
      ghost var p := 0;
      DoneStart(syms, download);
      while i < |syms|
        invariant p == if i < |syms| then i else |syms|
        invariant Done(syms, p, results, successCount, download)
        decreases |syms| - i
      {
        var hi := Min(i + batchSize, |syms|);
        var failed;
        ghost var bad;
        failed, results, successCount, bad := DownloadBatch(syms, i, hi, results, successCount, download);
        if failed {
          assert bad < |syms| && Known(products, syms[bad]);
          return Err(TypeError), successCount;
        }
        i, p := i + batchSize, hi;
      }
      DoneAll(syms, results, successCount, download);
      return Ok(results), successCount;
    }

    lemma DoneStart(syms: seq<string>, download: (string, Value, nat) -> Attempt)
      requires Valid()
      ensures Done(syms, 0, [], 0, download)
    {
      var vs := Outcomes(config, products, syms, download);
      assert syms[..0] == [] && vs[..0] == [];
    }

    lemma DoneAll(syms: seq<string>, results: Dict<string, bool>, successCount: nat,
                  download: (string, Value, nat) -> Attempt)
      requires Valid() && Done(syms, |syms|, results, successCount, download)
      ensures results == FromPairs(syms, Outcomes(config, products, syms, download))
      ensures successCount == CountOf(Outcomes(config, products, syms, download))
    {
      var vs := Outcomes(config, products, syms, download);
      FromPairsWhole(syms, vs);
      CountOfWhole(vs);
    }

    /** The first p products are processed: their results and count of successes, and
        no known product among them when retry_times is unusable. */
    ghost predicate Done(syms: seq<string>, p: nat, results: Dict<string, bool>, successCount: nat,
                         download: (string, Value, nat) -> Attempt)
      requires Valid()
      reads this
    {
      && p <= |syms|
      && results == FromPairs(syms[..p], Outcomes(config, products, syms, download)[..p])
      && successCount == CountOf(Outcomes(config, products, syms, download)[..p])
      && (Tries(config, None).None? ==> forall j :: 0 <= j < p ==> !Known(products, syms[j]))
    }

    /** One batch, symbols[lo:hi]; `failed` when the TypeError escapes. */
    method DownloadBatch(syms: seq<string>, lo: nat, hi: nat, results: Dict<string, bool>, successCount: nat,
                         download: (string, Value, nat) -> Attempt)
      returns (failed: bool, results': Dict<string, bool>, successCount': nat, ghost bad: nat)
      requires Valid() && lo <= hi <= |syms| && Done(syms, lo, results, successCount, download)
      ensures failed ==> Tries(config, None).None? && lo <= bad < hi && Known(products, syms[bad])
      ensures !failed ==> Done(syms, hi, results', successCount', download)
    {
      var batch := syms[lo..hi];
      results', successCount' := results, successCount;
      for k := 0 to |batch|
        invariant Done(syms, lo + k, results', successCount', download)
      {
        assert batch[k] == syms[lo + k];
        var success, _ := DownloadOne(batch[k], download);
        if success.Err? {
          return true, results', successCount', lo + k;
        }
        DoneStep(syms, lo + k, results', successCount', download);
        results' := Put(results', batch[k], success.value);
        if success.value {
          successCount' := successCount' + 1;
        }
      }
      return false, results', successCount', 0;
    }

    lemma DoneStep(syms: seq<string>, p: nat, results: Dict<string, bool>, successCount: nat,
                   download: (string, Value, nat) -> Attempt)
      requires Valid() && p < |syms| && Done(syms, p, results, successCount, download)
      requires Tries(config, None).None? ==> !Known(products, syms[p])
      ensures Done(syms, p + 1, Put(results, syms[p], Outcome(config, products, syms[p], download)),
                   successCount + (if Outcome(config, products, syms[p], download) then 1 else 0), download)
    {
      var vs := Outcomes(config, products, syms, download);
      FromPairsStep(syms, vs, p);
      CountOfStep(vs, p);
    }

    /** run_download: {} when the database or the SDK cannot be initialised; otherwise
        len(symbols) and the range step are checked, an empty range gives {}, and the
        batch loops give the results. The downloader is closed whether or not an exception
        escapes. */
    method RunDownload(symbols: Option<seq<string>>, connects: bool, start: SdkStart,
                       download: (string, Value, nat) -> Attempt)
      returns (r: Result<Dict<string, bool>>, successCount: nat)
      requires Valid()
      modifies downloader
      ensures !connects ==> r == Ok([]) && downloader.tqApi == old(downloader.tqApi)
      ensures connects && start != Connects ==> r == Ok([]) && downloader.database
      ensures connects && start == Connects ==> downloader.database && !downloader.tqApi
      ensures connects && start == Connects && SymbolCount(symbols, config).None? ==> r == Err(TypeError)
      ensures connects && start == Connects && SymbolCount(symbols, config).Some? && BatchStep(config).Err? ==>
                r == Err(BatchStep(config).error)
      ensures connects && start == Connects && SymbolCount(symbols, config).Some? && BatchStep(config).Ok?
              && (BatchStep(config).value < 0 || SymbolCount(symbols, config).value == 0)
              ==> r == Ok([])
      ensures connects && start == Connects && SymbolCount(symbols, config).Some? && BatchStep(config).Ok?
              && BatchStep(config).value > 0 && SymbolCount(symbols, config).value > 0
              && SymbolList(symbols, config).Err?
              ==> r == Err(TypeError)
      ensures connects && start == Connects && SymbolList(symbols, config).Ok? && BatchStep(config).Ok?
              && BatchStep(config).value > 0 ==>
                (r.Err? <==> Tries(config, None).None?
                             && exists i :: 0 <= i < |SymbolList(symbols, config).value| && Known(products, SymbolList(symbols, config).value[i]))
                && (r.Ok? ==>
                      r.value == FromPairs(SymbolList(symbols, config).value,
                                           Outcomes(config, products, SymbolList(symbols, config).value, download)))
    {
      successCount := 0;
      var count := SymbolCount(symbols, config);
      var list := SymbolList(symbols, config);
      var ok := downloader.InitDatabase(connects);
      if !ok {
        return Ok([]), successCount;
      }
      ok := downloader.InitTqsdk(start);
      if !ok {
        return Ok([]), successCount;
      }
      var step := BatchStep(config);
      if count.None? {
        r := Err(TypeError);
      } else if step.Err? {
        r := Err(step.error);
      } else if step.value < 0 || count.value == 0 {
        r := Ok([]);
      } else if list.Err? {
        r := Err(TypeError);
      } else {
        r, successCount := DownloadBatches(list.value, step.value, download);
      }
      downloader.Close();
    }
  }
}
