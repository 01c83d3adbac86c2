/** The futures data downloader (core/data/downloader.py): converting vnpy contract codes
    to TqSdk codes, splitting a code into exchange, product and month, the guards and the
    fallback of a single contract download, saving bars in batches, and the result
    dictionaries of one product and of several products.

    The SDK and the database are parameters: `fetch(request)` is what the SDK gives back
    for one kline request, `save(batch)` whether database.save_bar_data(batch) returns
    normally. A kline row is represented by its index; the conversion of a row to a
    BarData is not modelled. */
module Downloader {
  import opened Wrappers
  import opened Text
  import opened Decimal
  import opened Dicts
  import opened FuturesConfig

  // ------------------------------------------------------------ convert_to_tq_symbol

  /** The TqSdk code of a vnpy code: "X9999.EX" is the main continuous contract KQ.m@EX.X,
      "X8888.EX" the index contract KQ.i@EX.X, any other "S.EX" becomes "EX.S"; a code
      without a dot is kept. More than one dot makes the unpacking of split('.') raise. */
  function ConvertToTqSymbol(vt: string): (r: Result<string>)
    ensures '.' !in vt ==> r == Ok(vt)
    ensures r.Err? <==> Count(vt, '.') >= 2
    ensures r.Err? ==> r.error == ValueError
  {
    if '.' !in vt then Ok(vt)
    else
      match SplitPair(vt, '.')
      case NotTwo => Err(ValueError)
      case Pair(symbolPart, exchangePart) =>
        if EndsWith(symbolPart, "9999") then
          Ok("KQ.m@" + exchangePart + "." + symbolPart[..|symbolPart| - 4])
        else if EndsWith(symbolPart, "8888") then
          Ok("KQ.i@" + exchangePart + "." + symbolPart[..|symbolPart| - 4])
        else
          Ok(exchangePart + "." + symbolPart)
  }

  /** The main continuous contract of get_active_contracts maps to its KQ.m@ code. */
  lemma ConvertContinuous(symbol: string, ex: Exchange)
    requires '.' !in symbol
    ensures ConvertToTqSymbol(ContinuousCode(symbol, ex)) == Ok("KQ.m@" + ExchangeValue(ex) + "." + symbol)
  {
    var part := symbol + "9999";
    assert ContinuousCode(symbol, ex) == part + ['.'] + ExchangeValue(ex);
    SplitPairOf(part, ExchangeValue(ex), '.');
    assert part[..|part| - 4] == symbol;
  }

  /** The index contract maps to its KQ.i@ code. */
  lemma ConvertWeighted(symbol: string, ex: Exchange)
    requires '.' !in symbol
    ensures ConvertToTqSymbol(WeightedCode(symbol, ex)) == Ok("KQ.i@" + ExchangeValue(ex) + "." + symbol)
  {
    var part := symbol + "8888";
    assert WeightedCode(symbol, ex) == part + ['.'] + ExchangeValue(ex);
    SplitPairOf(part, ExchangeValue(ex), '.');
    assert part[|part| - 4..] == "8888";
    assert part[..|part| - 4] == symbol;
  }

  /** A code that ends neither in 9999 nor in 8888 only swaps its two parts. */
  lemma ConvertPlain(symbolPart: string, exchangePart: string)
    requires '.' !in symbolPart && '.' !in exchangePart
    requires !EndsWith(symbolPart, "9999") && !EndsWith(symbolPart, "8888")
    ensures ConvertToTqSymbol(symbolPart + "." + exchangePart) == Ok(exchangePart + "." + symbolPart)
  {
    SplitPairOf(symbolPart, exchangePart, '.');
  }

  /** A dated code of generate_contract_months, with its exchange, becomes "EX.code". */
  lemma ConvertDated(symbol: string, ym: YearMonth, ex: Exchange)
    requires '.' !in symbol && 1 <= ym.month <= 12
    ensures var code := ContractCode(symbol, ym);
            ConvertToTqSymbol(code + "." + ExchangeValue(ex)) == Ok(ExchangeValue(ex) + "." + code)
  {
    var code := ContractCode(symbol, ym);
    var digits := LastChars(NatToString(ym.year), 2);
    var mm := Pad2(ym.month);
    assert code == symbol + digits + mm;
    assert code[|code| - 2..] == mm;
    assert '.' !in code by {
      forall i | 0 <= i < |code| ensures code[i] != '.' {
        if i < |symbol| {
          assert code[i] == symbol[i];
        } else if i < |symbol| + |digits| {
          assert code[i] == digits[i - |symbol|];
          assert digits[i - |symbol|] == NatToString(ym.year)[|NatToString(ym.year)| - |digits| + i - |symbol|];
        } else {
          assert code[i] == mm[i - |symbol| - |digits|];
        }
      }
    }
    assert DigitsValue("99") == 99 && DigitsValue("88") == 88;
    assert mm != "99" && mm != "88";
    EndsWithLastTwo(code, "9999");
    EndsWithLastTwo(code, "8888");
    ConvertPlain(code, ExchangeValue(ex));
  }

  // ------------------------------------------------------------ parse_vt_symbol

  /** What parse_vt_symbol returns: (None, None, None) for a code without a dot, else the
      exchange, the product and the trailing digits (None when there are none). */
  datatype VtSymbol = Undotted | Parsed(exchange: string, symbol: string, month: Option<string>)

  /** Splits "S.EX" into the exchange EX and S into a product and its maximal run of
      trailing digits, stepping a negative index back from the end as the source does. */
  method ParseVtSymbol(vt: string) returns (r: Result<VtSymbol>)
    ensures '.' !in vt ==> r == Ok(Undotted)
    ensures r.Err? <==> Count(vt, '.') >= 2
    ensures r.Err? ==> r.error == ValueError
    ensures Count(vt, '.') == 1 ==> r.Ok? && r.value.Parsed?
    ensures r.Ok? && r.value.Parsed? ==>
              var p := r.value;
              && p.symbol + p.month.GetOr("") + "." + p.exchange == vt
              && '.' !in p.exchange && '.' !in p.symbol && '.' !in p.month.GetOr("")
              && (p.month.Some? ==> |p.month.value| > 0 && AllDigits(p.month.value))
              && (p.symbol == [] || !IsDigit(p.symbol[|p.symbol| - 1]))
  {
    if '.' !in vt {
      return Ok(Undotted);
    }
    var parts := SplitPair(vt, '.');
    if parts.NotTwo? {
      return Err(ValueError);
    }
    var symbolMonth, exchange := parts.left, parts.right;
    var n := |symbolMonth|;
    var lastIdx := -1;
    while lastIdx >= -n && IsDigit(symbolMonth[n + lastIdx])
      invariant -n - 1 <= lastIdx <= -1
      invariant forall k :: n + lastIdx < k < n ==> IsDigit(symbolMonth[k])
      decreases n + lastIdx
    {
      lastIdx := lastIdx - 1;
    }
    if lastIdx == -1 {
      return Ok(Parsed(exchange, symbolMonth, None));
    }
    var cut := n + lastIdx + 1;
    var symbol := symbolMonth[..cut];
    var month := symbolMonth[cut..];
    assert symbol + month == symbolMonth by {
      assert symbolMonth[..cut] + symbolMonth[cut..] == symbolMonth;
    }
    return Ok(Parsed(exchange, symbol, Some(month)));
  }

  // ------------------------------------------------------------ download_contract_data

  /** exchange_mapping.get(code): the six exchanges the downloader supports. */
  function ExchangeCode(code: string): (r: Option<Exchange>)
    ensures r.Some? ==> ExchangeValue(r.value) == code
    ensures forall e :: ExchangeValue(e) == code ==> r == Some(e)
  {
    match code
    case "CFFEX" => Some(CFFEX)
    case "INE" => Some(INE)
    case "SHFE" => Some(SHFE)
    case "CZCE" => Some(CZCE)
    case "DCE" => Some(DCE)
    case "GFEX" => Some(GFEX)
    case _ => None
  }

  /** The exchange a code names after its dot, when the downloader supports it. */
  function SupportedExchange(vt: string): Option<Exchange> {
    match SplitPair(vt, '.')
    case NotTwo => None
    case Pair(_, exchange) => ExchangeCode(exchange)
  }

  /** A kline request: get_kline_data_series over the date range, or get_kline_serial
      for the last `size` one-minute bars. */
  datatype KlineRequest = ByRange(tqSymbol: string) | ByLength(tqSymbol: string, size: nat)

  /** What the SDK gives back: an exception with its message, or a frame of rows
      (None and an empty frame are both no rows). */
  datatype Klines = Raised(message: string) | Rows(count: nat)

  /** The exception text that makes the download fall back to get_kline_serial. */
  predicate ProfessionalOnly(message: string) {
    Contains(message, "专业版") || Contains(ToLower(message), "professional")
  }

  /** The requests one download_contract_data call makes, and the rows it obtains
      (0 whenever it returns False). */
  datatype Attempt = Attempt(requests: seq<KlineRequest>, rows: nat)

  function FirstRequest(tq: string, dateRange: bool, size: nat): KlineRequest {
    if dateRange then ByRange(tq) else ByLength(tq, size)
  }

  /** The requests for one TqSdk code: the first request, then get_kline_serial once more
      when the first raised the free-edition error; rows come from the last request. */
  function FetchKlines(tq: string, dateRange: bool, size: nat, fetch: KlineRequest -> Klines): (a: Attempt)
    ensures 1 <= |a.requests| <= 2 && a.requests[0] == FirstRequest(tq, dateRange, size)
    ensures |a.requests| == 2 <==> fetch(a.requests[0]).Raised? && ProfessionalOnly(fetch(a.requests[0]).message)
    ensures |a.requests| == 2 ==> a.requests[1] == ByLength(tq, size)
    ensures a.rows == (match fetch(a.requests[|a.requests| - 1]) case Rows(n) => n case Raised(_) => 0)
  {
    var first := FirstRequest(tq, dateRange, size);
    match fetch(first)
    case Rows(n) => Attempt([first], n)
    case Raised(message) =>
      if !ProfessionalOnly(message) then Attempt([first], 0)
      else
        var second := ByLength(tq, size);
        match fetch(second)
        case Rows(n) => Attempt([first, second], n)
        case Raised(_) => Attempt([first, second], 0)
  }

  /** The try/except around the kline request of download_contract_data. */
  method FetchWithFallback(tq: string, dateRange: bool, size: nat, fetch: KlineRequest -> Klines)
    returns (requests: seq<KlineRequest>, rows: nat)
    ensures Attempt(requests, rows) == FetchKlines(tq, dateRange, size, fetch)
  {
    var first := FirstRequest(tq, dateRange, size);
    requests := [first];
    var klines := fetch(first);
    if klines.Raised? {
      if !ProfessionalOnly(klines.message) {
        return requests, 0;
      }
      var second := ByLength(tq, size);
      requests := requests + [second];
      klines := fetch(second);
      if klines.Raised? {
        return requests, 0;
      }
    }
    rows := klines.count;
  }

  /** download_contract_data with the SDK and the database set or not, for one code:
      nothing is requested unless both are set and the code names a supported exchange. */
  function ContractAttempt(hasApi: bool, hasDatabase: bool, vt: string, dateRange: bool, size: nat,
                           fetch: KlineRequest -> Klines): (a: Attempt)
    ensures (!hasApi || !hasDatabase || SupportedExchange(vt).None?) ==> a == Attempt([], 0)
    ensures hasApi && hasDatabase && SupportedExchange(vt).Some? ==>
              ConvertToTqSymbol(vt).Ok? && a == FetchKlines(ConvertToTqSymbol(vt).value, dateRange, size, fetch)
  {
    if !hasApi || !hasDatabase then Attempt([], 0)
    else
      match ConvertToTqSymbol(vt)
      case Err(_) => Attempt([], 0)
      case Ok(tq) => if SupportedExchange(vt).None? then Attempt([], 0) else FetchKlines(tq, dateRange, size, fetch)
  }

  /** A code is supported exactly when it has one dot and a supported exchange after it. */
  lemma SupportedExchangeOf(symbolPart: string, ex: Exchange)
    requires '.' !in symbolPart
    ensures SupportedExchange(symbolPart + "." + ExchangeValue(ex)) == Some(ex)
  {
    SplitPairOf(symbolPart, ExchangeValue(ex), '.');
  }

  /** The exchange part parse_vt_symbol finds is the one SupportedExchange looks up. */
  lemma ParsedExchange(vt: string, front: string, exchange: string)
    requires front + "." + exchange == vt && '.' !in front && '.' !in exchange
    ensures SupportedExchange(vt) == ExchangeCode(exchange)
  {
    SplitPairOf(front, exchange, '.');
  }

  // ------------------------------------------------------------ save_bars_batch

  /** The rows concatenated, in batch order. */
  function Flatten<T>(batches: seq<seq<T>>): seq<T> {
    if batches == [] then [] else Flatten(batches[..|batches| - 1]) + batches[|batches| - 1]
  }

  /** `batches` is bars cut into consecutive slices of n, the last one possibly shorter. */
  predicate Batched<T(==)>(batches: seq<seq<T>>, bars: seq<T>, n: nat) {
    && Flatten(batches) == bars
    && (forall k :: 0 <= k < |batches| ==> 0 < |batches[k]| <= n)
    && (forall k :: 0 <= k < |batches| - 1 ==> |batches[k]| == n)
  }

  /** The number of rows in the batches the database accepted. */
  function SavedRows<T>(batches: seq<seq<T>>, save: seq<T> -> bool): (n: nat)
    ensures n <= |Flatten(batches)|
  {
    if batches == [] then 0
    else
      var last := batches[|batches| - 1];
      SavedRows(batches[..|batches| - 1], save) + (if save(last) then |last| else 0)
  }

  /** The batching is determined by the bars and the batch size. */
  lemma {:induction false} BatchedUnique<T>(b1: seq<seq<T>>, b2: seq<seq<T>>, bars: seq<T>, n: nat)
    requires Batched(b1, bars, n) && Batched(b2, bars, n)
    ensures b1 == b2
    decreases |bars|
  {
    if b1 != [] && b2 != [] {
      var k1, k2 := |b1| - 1, |b2| - 1;
      var f1, f2 := b1[..k1], b2[..k2];
      assert Flatten(b1) == Flatten(f1) + b1[k1];
      assert Flatten(b2) == Flatten(f2) + b2[k2];
      FlattenLength(f1, n);
      FlattenLength(f2, n);
      assert |b1[k1]| == |b2[k2]| by {
        LastBatchSize(|Flatten(f1)|, |b1[k1]|, k1, |Flatten(f2)|, |b2[k2]|, k2, n);
      }
      assert b1[k1] == bars[|bars| - |b1[k1]|..] == b2[k2];
      assert Flatten(f1) == bars[..|bars| - |b1[k1]|] == Flatten(f2);
      BatchedUnique(f1, f2, Flatten(f1), n);
    }
  }

  /** k full batches of n hold k * n rows. */
  lemma {:induction false} FlattenLength<T>(batches: seq<seq<T>>, n: nat)
    requires forall k :: 0 <= k < |batches| ==> |batches[k]| == n
    ensures |Flatten(batches)| == |batches| * n
  {
    if batches != [] {
      var k := |batches| - 1;
      var front := batches[..k];
      assert forall j :: 0 <= j < |front| ==> front[j] == batches[j];
      FlattenLength(front, n);
      assert |Flatten(batches)| == |Flatten(front)| + |batches[k]|;
      assert (k + 1) * n == k * n + n;
    }
  }

  /** k1 * n + l1 == k2 * n + l2 with 0 < l1, l2 <= n forces l1 == l2. */
  lemma LastBatchSize(f1: nat, l1: nat, k1: nat, f2: nat, l2: nat, k2: nat, n: nat)
    requires f1 == k1 * n && f2 == k2 * n && 0 < l1 <= n && 0 < l2 <= n && f1 + l1 == f2 + l2
    ensures l1 == l2
  {
    if k1 < k2 {
      MulStep(k1, k2, n);
    } else if k2 < k1 {
      MulStep(k2, k1, n);
    }
  }

  lemma {:induction false} MulStep(a: nat, b: nat, n: nat)
    requires a < b
    ensures a * n + n <= b * n
    decreases b - a
  {
    if b > a + 1 {
      MulStep(a, b - 1, n);
      assert (b - 1) * n + n == b * n;
    } else {
      assert (a + 1) * n == a * n + n;
    }
  }

  /** The kline rows 0 .. n - 1. */
  function RowIndices(n: nat): (r: seq<nat>)
    ensures |r| == n && forall i :: 0 <= i < n ==> r[i] == i
  {
    seq(n, i => i)
  }

  /** save_bars_batch: hands the bars to the database in slices of batchSize, in order,
      and counts the rows of the slices it accepted; an empty list saves nothing. */
  method SaveBarsBatch<T(==)>(bars: seq<T>, batchSize: nat, save: seq<T> -> bool)
    returns (batches: seq<seq<T>>, saved: nat)
    requires batchSize > 0
    ensures Batched(batches, bars, batchSize)
    ensures bars == [] ==> batches == []
    ensures saved == SavedRows(batches, save) && saved <= |bars|
  {
    batches := [];
    saved := 0;
    if bars == [] {
      return;
    }
    var total := |bars|;
    var i := 0;
    while i < total
      invariant 0 <= i < total + batchSize
      invariant i <= total ==> i == |Flatten(batches)| && Flatten(batches) == bars[..i]
      invariant i > total ==> Flatten(batches) == bars
      invariant forall k :: 0 <= k < |batches| ==> 0 < |batches[k]| <= batchSize
      invariant forall k :: 0 <= k < |batches| - 1 ==> |batches[k]| == batchSize
      invariant i < total ==> forall k :: 0 <= k < |batches| ==> |batches[k]| == batchSize
      invariant saved == SavedRows(batches, save)
      decreases total - i
    {
      var end := if i + batchSize <= total then i + batchSize else total;
      var batch := bars[i..end];
      var before := batches;
      batches := batches + [batch];
      assert batches[..|batches| - 1] == before;
      assert Flatten(batches) == Flatten(before) + batch;
      assert bars[..i] + bars[i..end] == bars[..end];
      if save(batch) {
        saved := saved + |batch|;
      }
      i := i + batchSize;
      if i == total {
        assert bars[..i] == bars;
      }
    }
    assert Flatten(batches) == bars by {
      if i == total { assert bars[..i] == bars; }
    }
    assert |Flatten(batches)| == |bars|;
  }

  // ------------------------------------------------------------ the downloader object

  /** How init_tqsdk ends: tqsdk is not installed, TqApi() raises, or it connects. */
  datatype SdkStart = NotInstalled | StartFails | Connects

  class FuturesDataDownloader {
    /** Whether self.database and self.tq_api are set. */
    var database: bool
    var tqApi: bool

    constructor ()
      ensures !database && !tqApi
    {
      database := false;
      tqApi := false;
    }

    /** init_database: get_database() succeeds or raises; a failure keeps the old value. */
    method InitDatabase(connects: bool) returns (ok: bool)
      modifies this
      ensures ok == connects
      ensures database == (connects || old(database)) && tqApi == old(tqApi)
    {
      if connects {
        database := true;
        return true;
      }
      return false;
    }

    /** init_tqsdk: True once TqApi() is created, with or without credentials. */
    method InitTqsdk(start: SdkStart) returns (ok: bool)
      modifies this
      ensures ok == (start == Connects)
      ensures tqApi == (start == Connects || old(tqApi)) && database == old(database)
    {
      if start == Connects {
        tqApi := true;
        return true;
      }
      return false;
    }

    /** close: releases the SDK; the database stays. */
    method Close()
      modifies this
      ensures !tqApi && database == old(database)
    {
      if tqApi {
        tqApi := false;
      }
    }

    /** download_contract_data: the SDK requests it makes, whether it returns True, and
        the batches of 1000 bars it hands to the database. It returns True exactly when
        rows came back, whether or not the database accepted them. */
    method DownloadContractData(vt: string, dateRange: bool, size: nat,
                                fetch: KlineRequest -> Klines, save: seq<nat> -> bool)
      returns (ok: bool, requests: seq<KlineRequest>, batches: seq<seq<nat>>)
      ensures var a := ContractAttempt(tqApi, database, vt, dateRange, size, fetch);
              && requests == a.requests
              && ok == (a.rows > 0)
              && Batched(batches, if ok then RowIndices(a.rows) else [], 1000)
    {
      batches := [];
      if !tqApi {
        return false, [], [];
      }
      if !database {
        return false, [], [];
      }
      var tq := ConvertToTqSymbol(vt);
      if tq.Err? {
        return false, [], [];
      }
      var parsed := ParseVtSymbol(vt);
      var exchange: Option<Exchange> := None;
      if parsed.Ok? && parsed.value.Parsed? {
        exchange := ExchangeCode(parsed.value.exchange);
        ParsedExchange(vt, parsed.value.symbol + parsed.value.month.GetOr(""), parsed.value.exchange);
      } else {
        assert Count(vt, '.') == 0;
      }
      if exchange.None? {
        return false, [], [];
      }
      var rows;
      requests, rows := FetchWithFallback(tq.value, dateRange, size, fetch);
      if rows == 0 {
        return false, requests, [];
      }
      var saved;
      batches, saved := SaveBarsBatch(RowIndices(rows), 1000, save);
      return true, requests, batches;
    }

    /** download_symbol_data: one entry per priority contract of the product (as of the
        given month), True where that contract's download returned True. */
    method DownloadSymbolData(symbol: string, updateMode: string, dateRange: bool, year: nat, month: nat,
                              fetch: KlineRequest -> Klines, save: seq<nat> -> bool)
      returns (results: Dict<string, bool>)
      requires 1 <= month <= 12
      ensures var contracts := PriorityContracts(symbol, year, month);
              results == FromPairs(contracts, Successes(tqApi, database, contracts, dateRange, BarCount(updateMode), fetch))
    {
      var contracts := GetPriorityContracts(symbol, year, month);
      results := DownloadContracts(contracts, dateRange, BarCount(updateMode), fetch, save);
    }

    /** The loop of download_symbol_data: results[contract] = download_contract_data(...)
        for each contract in turn. */
    method DownloadContracts(contracts: seq<string>, dateRange: bool, size: nat,
                             fetch: KlineRequest -> Klines, save: seq<nat> -> bool)
      returns (results: Dict<string, bool>)
      ensures results == FromPairs(contracts, Successes(tqApi, database, contracts, dateRange, size, fetch))
    {
      results := [];
      ghost var oks := Successes(tqApi, database, contracts, dateRange, size, fetch);
      for i := 0 to |contracts|
        invariant results == FromPairs(contracts[..i], oks[..i])
      {
        var success, _, _ := DownloadContractData(contracts[i], dateRange, size, fetch, save);
        assert success == oks[i];
        FromPairsStep(contracts, oks, i);
        results := Put(results, contracts[i], success);
      }
      assert contracts[..|contracts|] == contracts && oks[..|oks|] == oks;
    }

    /** download_multiple_symbols: one entry per product ({} where its download raised),
        and the totals over all entries. */
    method DownloadMultipleSymbols(symbols: seq<string>, updateMode: string, dateRange: bool,
                                   year: nat, month: nat, fetch: KlineRequest -> Klines,
                                   save: seq<nat> -> bool, raises: string -> bool)
      returns (allResults: Dict<string, Dict<string, bool>>, totalContracts: nat, totalSuccess: nat)
      requires 1 <= month <= 12
      ensures allResults
           == FromPairs(symbols, SymbolResults(tqApi, database, symbols, updateMode, dateRange, year, month, fetch, raises))
      ensures totalContracts == TotalEntries(allResults) && totalSuccess == TotalTrue(allResults)
      ensures totalSuccess <= totalContracts
    {
      allResults := [];
      ghost var entries := SymbolResults(tqApi, database, symbols, updateMode, dateRange, year, month, fetch, raises);
      for i := 0 to |symbols|
        invariant allResults == FromPairs(symbols[..i], entries[..i])
      {
        var results := DownloadOrRaise(symbols[i], updateMode, dateRange, year, month, fetch, save, raises);
        FromPairsStep(symbols, entries, i);
        allResults := Put(allResults, symbols[i], results);
      }
      assert symbols[..|symbols|] == symbols && entries[..|entries|] == entries;
      totalContracts, totalSuccess := CountTotals(allResults);
    }

    /** One pass of that loop: an exception escaping download_symbol_data is caught and
        recorded as {}. */
    method DownloadOrRaise(symbol: string, updateMode: string, dateRange: bool, year: nat, month: nat,
                           fetch: KlineRequest -> Klines, save: seq<nat> -> bool, raises: string -> bool)
      returns (results: Dict<string, bool>)
      requires 1 <= month <= 12
      ensures results == SymbolResults(tqApi, database, [symbol], updateMode, dateRange, year, month, fetch, raises)[0]
    {
      if raises(symbol) {
        results := [];
      } else {
        results := DownloadSymbolData(symbol, updateMode, dateRange, year, month, fetch, save);
      }
    }
  }

  /** The two sums download_multiple_symbols reports: contracts tried and downloads that
      returned True. */
  method CountTotals(allResults: Dict<string, Dict<string, bool>>) returns (totalContracts: nat, totalSuccess: nat)
    ensures totalContracts == TotalEntries(allResults) && totalSuccess == TotalTrue(allResults)
    ensures totalSuccess <= totalContracts
  {
    totalContracts, totalSuccess := 0, 0;
    for k := 0 to |allResults|
      invariant totalContracts == TotalEntries(allResults[..k])
      invariant totalSuccess == TotalTrue(allResults[..k])
    {
      assert allResults[..k + 1][..k] == allResults[..k];
      totalContracts := totalContracts + |allResults[k].1|;
      totalSuccess := totalSuccess + CountTrue(allResults[k].1);
    }
    assert allResults[..|allResults|] == allResults;
  }

  /** The bar count of an update mode: 2000 for "incremental", 10000 for anything else. */
  function BarCount(updateMode: string): (size: nat)
    ensures size == 2000 <==> updateMode == "incremental"
    ensures size == 10000 <==> updateMode != "incremental"
  {
    if updateMode == "incremental" then 2000 else 10000
  }

  /** Whether each contract's download returns True. */
  function Successes(hasApi: bool, hasDatabase: bool, contracts: seq<string>, dateRange: bool, size: nat,
                     fetch: KlineRequest -> Klines): (r: seq<bool>)
    ensures |r| == |contracts|
    ensures forall k :: 0 <= k < |contracts| ==>
              r[k] == (ContractAttempt(hasApi, hasDatabase, contracts[k], dateRange, size, fetch).rows > 0)
  {
    seq(|contracts|, k requires 0 <= k < |contracts| =>
      ContractAttempt(hasApi, hasDatabase, contracts[k], dateRange, size, fetch).rows > 0)
  }

  /** The entry download_multiple_symbols records for each product. */
  function SymbolResults(hasApi: bool, hasDatabase: bool, symbols: seq<string>, updateMode: string,
                         dateRange: bool, year: nat, month: nat, fetch: KlineRequest -> Klines,
                         raises: string -> bool): (r: seq<Dict<string, bool>>)
    requires 1 <= month <= 12
    ensures |r| == |symbols|
    ensures forall k :: 0 <= k < |symbols| ==>
              r[k] == if raises(symbols[k]) then []
                      else
                        var contracts := PriorityContracts(symbols[k], year, month);
                        FromPairs(contracts, Successes(hasApi, hasDatabase, contracts, dateRange, BarCount(updateMode), fetch))
  {
    seq(|symbols|, k requires 0 <= k < |symbols| =>
      if raises(symbols[k]) then []
      else
        var contracts := PriorityContracts(symbols[k], year, month);
        FromPairs(contracts, Successes(hasApi, hasDatabase, contracts, dateRange, BarCount(updateMode), fetch)))
  }

  /** Without the SDK or the database every contract of a product is recorded False. */
  lemma NothingSucceedsUnset(hasApi: bool, hasDatabase: bool, contracts: seq<string>, dateRange: bool, size: nat,
                             fetch: KlineRequest -> Klines)
    requires !hasApi || !hasDatabase
    ensures CountTrue(FromPairs(contracts, Successes(hasApi, hasDatabase, contracts, dateRange, size, fetch))) == 0
  {
    var oks := Successes(hasApi, hasDatabase, contracts, dateRange, size, fetch);
    var d := FromPairs(contracts, oks);
    CountTruePositive(d);
    forall i | 0 <= i < |d| ensures !d[i].1 {
      FromPairsValues(contracts, oks, i);
    }
  }

  /** Every value of a dict built from assignments is one of the assigned values. */
  lemma {:induction false} FromPairsValues<K, V>(ks: seq<K>, vs: seq<V>, i: nat)
    requires |ks| == |vs| && i < |FromPairs(ks, vs)|
    ensures FromPairs(ks, vs)[i].1 in vs
  {
    var n := |ks| - 1;
    var d := FromPairs(ks[..n], vs[..n]);
    PutValues(d, ks[n], vs[n], i);
    if FromPairs(ks, vs)[i].1 != vs[n] {
      FromPairsValues(ks[..n], vs[..n], i);
    }
  }

  /** d[k] = v leaves every entry of another key where it was, and each entry afterwards
      is either the new (k, v) or the entry d held at that position. */
  lemma {:induction false} PutValues<K, V>(d: Dict<K, V>, k: K, v: V, i: nat)
    requires i < |Put(d, k, v)|
    ensures i < |d| && d[i].0 != k ==> Put(d, k, v)[i] == d[i]
    ensures Put(d, k, v)[i] == (k, v) || (i < |d| && Put(d, k, v)[i] == d[i])
  {
    if d != [] && d[0].0 != k && i > 0 {
      PutValues(d[1..], k, v, i - 1);
      assert Put(d, k, v)[i] == Put(d[1..], k, v)[i - 1];
    } else if d != [] && d[0].0 == k && i > 0 {
      assert Put(d, k, v)[i] == d[i];
    }
  }
}
