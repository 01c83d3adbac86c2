/** The contract-list script (scripts/update_contract_list.py): splitting a vnpy contract
    code into product, month and exchange, grouping codes by lower-cased product, merging the
    current and the future main contracts into sorted lists without repetitions, the counts
    written next to them, and the per-exchange tally of the summary.

    A Python exception that escapes (the unpacking of split('.') on a code with two dots) is
    an Err result. The two literal contract lists of the script are parameters. */
module ContractList {
  import opened Wrappers
  import opened Text
  import opened Dicts
  import opened StrOrder

  // ------------------------------------------------------------ parse_contract_symbol

  /** What parse_contract_symbol returns: (None, None, None) for a code without a dot, else
      the product, the trailing digits (None when there are none) and the exchange. */
  datatype ContractSymbol = NoDot | Parts(symbol: string, month: Option<string>, exchange: string)

  /** The length of the run of digits that ends s. */
  function TrailingDigits(s: string): (n: nat)
    ensures n <= |s|
    ensures forall k :: |s| - n <= k < |s| ==> IsDigit(s[k])
    ensures n < |s| ==> !IsDigit(s[|s| - n - 1])
  {
    if s != [] && IsDigit(s[|s| - 1]) then 1 + TrailingDigits(s[..|s| - 1]) else 0
  }

  /** A digit run that cannot be extended to the left is the trailing run. */
  lemma TrailingDigitsUnique(s: string, m: nat)
    requires m <= |s| && forall k :: |s| - m <= k < |s| ==> IsDigit(s[k])
    requires m < |s| ==> !IsDigit(s[|s| - m - 1])
    ensures TrailingDigits(s) == m
  {
  }

  /** The parts of a contract code: a code "S.EX" with one dot becomes the exchange EX and S
      cut before its maximal run of trailing digits; more than one dot raises. */
  function ContractParts(contract: string): (r: Result<ContractSymbol>)
    ensures '.' !in contract ==> r == Ok(NoDot)
    ensures r.Err? <==> Count(contract, '.') >= 2
    ensures r.Err? ==> r.error == ValueError
  {
    if '.' !in contract then Ok(NoDot)
    else
      match SplitPair(contract, '.')
      case NotTwo => Err(ValueError)
      case Pair(symbolMonth, exchange) =>
        var n := TrailingDigits(symbolMonth);
        var cut := |symbolMonth| - n;
        if n == 0 then Ok(Parts(symbolMonth, None, exchange))
        else
          Ok(Parts(symbolMonth[..cut], Some(symbolMonth[cut..]), exchange))
  }

  /** A code with one dot splits into product, month and exchange that spell it out again,
      none of them holding the dot. */
  lemma ContractPartsRoundTrip(contract: string)
    requires Count(contract, '.') == 1
    ensures ContractParts(contract).Ok? && ContractParts(contract).value.Parts?
    ensures ContractParts(contract).value.symbol + ContractParts(contract).value.month.GetOr("")
            + "." + ContractParts(contract).value.exchange == contract
    ensures '.' !in ContractParts(contract).value.exchange && '.' !in ContractParts(contract).value.symbol
  {
    var parts := SplitPair(contract, '.');
    var symbolMonth := parts.left;
    var n := TrailingDigits(symbolMonth);
    var cut := |symbolMonth| - n;
    var p := ContractParts(contract).value;
    assert p.exchange == parts.right;
    assert p.symbol == symbolMonth[..cut];
    assert p.symbol + p.month.GetOr("") == symbolMonth by {
      assert symbolMonth[..cut] + symbolMonth[cut..] == symbolMonth;
    }
  }

  /** The month is the maximal run of trailing digits, so the product does not end in one. */
  lemma ContractPartsMonth(contract: string)
    requires ContractParts(contract).Ok? && ContractParts(contract).value.Parts?
    ensures ContractParts(contract).value.month.Some? ==>
              |ContractParts(contract).value.month.value| > 0 && AllDigits(ContractParts(contract).value.month.value)
    ensures ContractParts(contract).value.symbol == []
            || !IsDigit(ContractParts(contract).value.symbol[|ContractParts(contract).value.symbol| - 1])
  {
  }

  /** parse_contract_symbol: a negative index steps back from the end while it is on a digit. */
  method ParseContractSymbol(contract: string) returns (r: Result<ContractSymbol>)
    ensures r == ContractParts(contract)
  {
    if '.' !in contract {
      return Ok(NoDot);
    }
    var parts := SplitPair(contract, '.');
    if parts.NotTwo? {
      return Err(ValueError);
    }
    var symbolMonth, exchange := parts.left, parts.right;
    var n := |symbolMonth|;
    var lastIdx := -1;
    while lastIdx >= -n && IsDigit(symbolMonth[n + lastIdx])
      invariant -n - 1 <= lastIdx <= -1
      invariant forall k :: n + lastIdx < k < n ==> IsDigit(symbolMonth[k])
      decreases n + lastIdx
    {
      lastIdx := lastIdx - 1;
    }
    TrailingDigitsUnique(symbolMonth, -lastIdx - 1);
    if lastIdx == -1 {
      return Ok(Parts(symbolMonth, None, exchange));
    }
    var symbol := symbolMonth[..n + lastIdx + 1];
    var month := symbolMonth[n + lastIdx + 1..];
    return Ok(Parts(symbol, Some(month), exchange));
  }

  // ------------------------------------------------------------ get_symbol_contracts

  /** No code of cs has two dots, so none of them makes parse_contract_symbol raise. */
  predicate AllParse(cs: seq<string>) {
    forall i :: 0 <= i < |cs| ==> Parses(cs[i])
  }

  /** The code has at most one dot. */
  predicate Parses(c: string) {
    Count(c, '.') < 2
  }

  /** `if symbol and month and exchange`: all three parts are present and non-empty. */
  predicate Complete(p: ContractSymbol) {
    p.Parts? && p.symbol != [] && p.month.Some? && p.month.value != [] && p.exchange != []
  }

  /** get_symbol_contracts files c under key k: c parses completely and its product,
      lower-cased, is k. */
  predicate FiledUnder(c: string, k: string) {
    ContractParts(c).Ok? && Complete(ContractParts(c).value) && ToLower(ContractParts(c).value.symbol) == k
  }

  /** The codes of cs filed under k, in the order of cs. */
  function Filed(cs: seq<string>, k: string): seq<string> {
    if cs == [] then []
    else Filed(cs[..|cs| - 1], k) + (if FiledUnder(cs[|cs| - 1], k) then [cs[|cs| - 1]] else [])
  }

  /** The codes filed under k are exactly the codes of cs that parse completely to product k. */
  lemma {:induction false} FiledMembers(cs: seq<string>, k: string, y: string)
    ensures y in Filed(cs, k) <==> y in cs && FiledUnder(y, k)
  {
    if cs != [] {
      var n := |cs| - 1;
      FiledMembers(cs[..n], k, y);
      assert cs == cs[..n] + [cs[n]];
    }
  }

  lemma FiledStep(cs: seq<string>, i: nat, k: string)
    requires i < |cs|
    ensures Filed(cs[..i + 1], k) == Filed(cs[..i], k) + (if FiledUnder(cs[i], k) then [cs[i]] else [])
  {
    assert cs[..i + 1][..i] == cs[..i];
  }

  /** d is the grouping of cs: one entry per key with codes filed under it, and each entry
      holds those codes in input order. */
  ghost predicate Grouping(d: Dict<string, seq<string>>, cs: seq<string>) {
    && DistinctKeys(d)
    && (forall k :: k in Keys(d) <==> Filed(cs, k) != [])
    && (forall k :: k in Keys(d) ==> Get(d, k) == Filed(cs, k))
  }

  /** get_symbol_contracts: the grouping of the codes by lower-cased product, skipping codes
      without a product, month or exchange; a code with two dots raises. */
  method GetSymbolContracts(contracts: seq<string>) returns (r: Result<Dict<string, seq<string>>>)
    ensures r.Err? <==> !AllParse(contracts)
    ensures r.Err? ==> r.error == ValueError
    ensures r.Ok? ==> Grouping(r.value, contracts)
  {
    var symbolContracts: Dict<string, seq<string>> := [];
    for i := 0 to |contracts|
      invariant AllParse(contracts[..i])
      invariant Grouping(symbolContracts, contracts[..i])
    {
      var parts := ParseContractSymbol(contracts[i]);
      if parts.Err? {
        return Err(ValueError);
      }
      symbolContracts := FileContract(symbolContracts, contracts, i, parts.value);
    }
    assert contracts[..|contracts|] == contracts;
    return Ok(symbolContracts);
  }

  /** One pass of that loop, for a code that parses. */
  method FileContract(d: Dict<string, seq<string>>, cs: seq<string>, i: nat, p: ContractSymbol)
    returns (d': Dict<string, seq<string>>)
    requires i < |cs| && Ok(p) == ContractParts(cs[i])
    requires AllParse(cs[..i]) && Grouping(d, cs[..i])
    ensures AllParse(cs[..i + 1]) && Grouping(d', cs[..i + 1])
  {
    AllParseStep(cs, i);
    d' := d;
    if Complete(p) {
      var key := ToLower(p.symbol);
      if key !in Keys(d') {
        d' := Put(d', key, []);
      }
      d' := Put(d', key, Get(d', key) + [cs[i]]);
      GroupingPut(d, cs, i, key, d');
    } else {
      GroupingSkip(d, cs, i);
    }
  }

  lemma AllParseStep(cs: seq<string>, i: nat)
    requires i < |cs| && AllParse(cs[..i]) && Parses(cs[i])
    ensures AllParse(cs[..i + 1])
  {
    assert forall j :: 0 <= j < i ==> cs[..i + 1][j] == cs[..i][j];
  }

  /** A code that does not parse completely is filed nowhere. */
  lemma GroupingSkip(d: Dict<string, seq<string>>, cs: seq<string>, i: nat)
    requires i < |cs| && ContractParts(cs[i]).Ok? && !Complete(ContractParts(cs[i]).value)
    requires Grouping(d, cs[..i])
    ensures Grouping(d, cs[..i + 1])
  {
    forall k ensures Filed(cs[..i + 1], k) == Filed(cs[..i], k) { FiledStep(cs, i, k); }
  }

  lemma GroupingPut(d: Dict<string, seq<string>>, cs: seq<string>, i: nat, key: string,
                    d': Dict<string, seq<string>>)
    requires i < |cs| && FiledUnder(cs[i], key) && Grouping(d, cs[..i])
    requires d' == Put(if key in Keys(d) then d else Put(d, key, []), key,
                       Get(if key in Keys(d) then d else Put(d, key, []), key) + [cs[i]])
    ensures Grouping(d', cs[..i + 1])
  {
    var d1 := if key in Keys(d) then d else Put(d, key, []);
    PutDistinct(d, key, []);
    PutDistinct(d1, key, Get(d1, key) + [cs[i]]);
    FiledOnly(cs[i], key);
    forall k ensures Filed(cs[..i + 1], k) == Filed(cs[..i], k) + (if k == key then [cs[i]] else []) {
      FiledStep(cs, i, k);
    }
    GroupingKeys(d, d1, d', cs[..i], cs[..i + 1], key, cs[i]);
  }

  /** A code is filed under one key at most. */
  lemma FiledOnly(c: string, key: string)
    requires FiledUnder(c, key)
    ensures forall k :: FiledUnder(c, k) <==> k == key
  {
  }

  lemma GroupingKeys(d: Dict<string, seq<string>>, d1: Dict<string, seq<string>>, d': Dict<string, seq<string>>,
                     ps: seq<string>, ps': seq<string>, key: string, c: string)
    requires Grouping(d, ps) && DistinctKeys(d')
    requires d1 == if key in Keys(d) then d else Put(d, key, [])
    requires d' == Put(d1, key, Get(d1, key) + [c])
    requires forall k :: Filed(ps', k) == Filed(ps, k) + (if k == key then [c] else [])
    ensures Grouping(d', ps')
  {
    forall k | k in Keys(d') ensures Get(d', k) == Filed(ps', k) {
      if k != key {
        PutOther(d1, key, Get(d1, key) + [c], k);
        if key !in Keys(d) { PutOther(d, key, [], k); }
      }
    }
  }

  // ------------------------------------------------------------ generate_priority_download_list

  /** all' holds the keys of all and of d, and under each key the codes it has in either. */
  ghost predicate Merged(all': Dict<string, seq<string>>, all: Dict<string, seq<string>>, d: Dict<string, seq<string>>) {
    && DistinctKeys(all')
    && (forall k :: k in Keys(all') <==> k in Keys(all) || k in Keys(d))
    && (forall k, y :: k in Keys(all') ==>
          (y in Get(all', k) <==> (k in Keys(all) && y in Get(all, k)) || (k in Keys(d) && y in Get(d, k))))
  }

  /** The for-loop that extends all_contracts with every (symbol, contracts) item of d. */
  method ExtendAll(all: Dict<string, seq<string>>, d: Dict<string, seq<string>>)
    returns (all': Dict<string, seq<string>>)
    requires DistinctKeys(all) && DistinctKeys(d)
    ensures Merged(all', all, d)
  {
    all' := all;
    for j := 0 to |d|
      invariant DistinctKeys(all')
      invariant forall k :: k in Keys(all') <==> k in Keys(all) || exists i :: 0 <= i < j && d[i].0 == k
      invariant forall k, y :: k in Keys(all') ==>
                  (y in Get(all', k) <==> (k in Keys(all) && y in Get(all, k))
                                          || exists i :: 0 <= i < j && d[i].0 == k && y in d[i].1)
    {
      all' := ExtendOne(all, d, j, all');
    }
    forall k | k in Keys(d) ensures exists i :: 0 <= i < |d| && d[i].0 == k {
      var i :| 0 <= i < |d| && Keys(d)[i] == k;
      assert d[i].0 == k;
    }
    forall k, i | 0 <= i < |d| && d[i].0 == k ensures k in Keys(d) && Get(d, k) == d[i].1 {
      GetAt(d, i);
    }
  }

  /** if symbol not in all_contracts: all_contracts[symbol] = []; then extend. */
  method ExtendOne(all: Dict<string, seq<string>>, d: Dict<string, seq<string>>, j: nat,
                   acc: Dict<string, seq<string>>)
    returns (acc': Dict<string, seq<string>>)
    requires j < |d| && DistinctKeys(d) && DistinctKeys(acc)
    requires forall k :: k in Keys(acc) <==> k in Keys(all) || exists i :: 0 <= i < j && d[i].0 == k
    requires forall k, y :: k in Keys(acc) ==>
               (y in Get(acc, k) <==> (k in Keys(all) && y in Get(all, k))
                                       || exists i :: 0 <= i < j && d[i].0 == k && y in d[i].1)
    ensures DistinctKeys(acc')
    ensures forall k :: k in Keys(acc') <==> k in Keys(all) || exists i :: 0 <= i < j + 1 && d[i].0 == k
    ensures forall k, y :: k in Keys(acc') ==>
              (y in Get(acc', k) <==> (k in Keys(all) && y in Get(all, k))
                                      || exists i :: 0 <= i < j + 1 && d[i].0 == k && y in d[i].1)
  {
    var (symbol, contracts) := d[j];
    acc' := acc;
    if symbol !in Keys(acc') {
      acc' := Put(acc', symbol, []);
    }
    var acc1 := acc';
    acc' := Put(acc', symbol, Get(acc', symbol) + contracts);
    PutDistinct(acc, symbol, []);
    PutDistinct(acc1, symbol, Get(acc1, symbol) + contracts);
    forall k, y | k in Keys(acc') && k != symbol
      ensures y in Get(acc', k) <==> y in Get(acc, k)
    {
      PutOther(acc1, symbol, Get(acc1, symbol) + contracts, k);
      if symbol !in Keys(acc) { PutOther(acc, symbol, [], k); }
    }
  }

  /** all_contracts[symbol] = sorted(list(set(all_contracts[symbol]))) for every key. */
  method SortAll(all: Dict<string, seq<string>>) returns (all': Dict<string, seq<string>>)
    requires DistinctKeys(all)
    ensures |all'| == |all| && Keys(all') == Keys(all) && DistinctKeys(all')
    ensures forall i :: 0 <= i < |all| ==> all'[i].1 == SortedUnique(all[i].1)
  {
    all' := all;
    for i := 0 to |all|
      invariant |all'| == |all| && Keys(all') == Keys(all) && DistinctKeys(all')
      invariant forall j :: 0 <= j < i ==> all'[j].1 == SortedUnique(all[j].1)
      invariant forall j :: i <= j < |all| ==> all'[j] == all[j]
    {
      PutAt(all', i, SortedUnique(all'[i].1));
      PutDistinct(all', all'[i].0, SortedUnique(all'[i].1));
      all' := Put(all', all'[i].0, SortedUnique(all'[i].1));
    }
  }

  /** A sorted list of entry i of a dict is the value of its key. */
  lemma SortedGet(all: Dict<string, seq<string>>, all': Dict<string, seq<string>>, k: string)
    requires DistinctKeys(all) && DistinctKeys(all') && |all'| == |all| && Keys(all') == Keys(all)
    requires forall i :: 0 <= i < |all| ==> all'[i].1 == SortedUnique(all[i].1)
    requires k in Keys(all)
    ensures Get(all', k) == SortedUnique(Get(all, k))
  {
    var i :| 0 <= i < |all| && Keys(all)[i] == k;
    GetAt(all, i);
    assert all'[i].0 == Keys(all')[i];
    GetAt(all', i);
  }

  /** generate_priority_download_list for the given current and future main contracts: one
      sorted list without repetitions per product of either list, holding every code of
      either list filed under that product. */
  method GeneratePriorityDownloadList(current: seq<string>, future: seq<string>)
    returns (r: Result<Dict<string, seq<string>>>)
    ensures r.Err? <==> !AllParse(current) || !AllParse(future)
    ensures r.Ok? ==> DistinctKeys(r.value)
    ensures r.Ok? ==> forall k :: k in Keys(r.value) <==> Filed(current, k) != [] || Filed(future, k) != []
    ensures r.Ok? ==> forall k :: k in Keys(r.value) ==> StrictlySorted(Get(r.value, k))
    ensures r.Ok? ==> forall k, y :: k in Keys(r.value) ==>
              (y in Get(r.value, k) <==> Wanted(y, k, current, future))
  {
    var currentContracts := GetSymbolContracts(current);
    if currentContracts.Err? {
      return Err(currentContracts.error);
    }
    var futureContracts := GetSymbolContracts(future);
    if futureContracts.Err? {
      return Err(futureContracts.error);
    }
    var cur, fut := currentContracts.value, futureContracts.value;
    var allContracts := ExtendAll([], cur);
    ghost var firstPass := allContracts;
    allContracts := ExtendAll(allContracts, fut);
    PriorityMembers(cur, fut, firstPass, allContracts, current, future);
    var sorted := SortAll(allContracts);
    SortedContents(allContracts, sorted, current, future);
    return Ok(sorted);
  }

  /** Sorting each list keeps its codes and leaves it strictly ascending. */
  lemma SortedContents(all: Dict<string, seq<string>>, sorted: Dict<string, seq<string>>,
                       current: seq<string>, future: seq<string>)
    requires DistinctKeys(all) && DistinctKeys(sorted) && |sorted| == |all| && Keys(sorted) == Keys(all)
    requires forall i :: 0 <= i < |all| ==> sorted[i].1 == SortedUnique(all[i].1)
    requires forall k, y :: k in Keys(all) ==>
               (y in Get(all, k) <==> Wanted(y, k, current, future))
    ensures forall k :: k in Keys(sorted) ==> StrictlySorted(Get(sorted, k))
    ensures forall k, y :: k in Keys(sorted) ==>
              (y in Get(sorted, k) <==> Wanted(y, k, current, future))
  {
    forall k | k in Keys(sorted) ensures Get(sorted, k) == SortedUnique(Get(all, k)) {
      SortedGet(all, sorted, k);
    }
    forall k, y | k in Keys(sorted)
      ensures y in Get(sorted, k) <==> Wanted(y, k, current, future)
    {
      assert y in Get(sorted, k) <==> y in Get(all, k);
      assert k in Keys(all);
    }
  }

  /** y is a code of either list filed under k. */
  predicate Wanted(y: string, k: string, current: seq<string>, future: seq<string>) {
    (y in current || y in future) && FiledUnder(y, k)
  }

  /** After both passes each product of either list holds the codes of either list filed under it. */
  lemma PriorityMembers(cur: Dict<string, seq<string>>, fut: Dict<string, seq<string>>,
                        all1: Dict<string, seq<string>>, all2: Dict<string, seq<string>>,
                        current: seq<string>, future: seq<string>)
    requires Grouping(cur, current) && Grouping(fut, future)
    requires Merged(all1, [], cur) && Merged(all2, all1, fut)
    ensures DistinctKeys(all2)
    ensures forall k :: k in Keys(all2) <==> Filed(current, k) != [] || Filed(future, k) != []
    ensures forall k, y :: k in Keys(all2) ==>
              (y in Get(all2, k) <==> Wanted(y, k, current, future))
  {
    forall k, y | k in Keys(all2)
      ensures y in Get(all2, k) <==> Wanted(y, k, current, future)
    {
      FiledMembers(current, k, y);
      FiledMembers(future, k, y);
    }
  }

  // ------------------------------------------------------------ save_contract_config

  /** The object save_contract_config writes. */
  datatype ContractConfig = ContractConfig(updateTime: string, description: string, totalSymbols: nat,
                                           totalContracts: nat, contracts: Dict<string, seq<string>>)

  /** sum(len(contract_list) for contract_list in contracts.values()). */
  function TotalContracts(d: Dict<string, seq<string>>): nat {
    if d == [] then 0 else TotalContracts(d[..|d| - 1]) + |d[|d| - 1].1|
  }

  /** Every listed code, list after list. */
  function Listed(d: Dict<string, seq<string>>): seq<string> {
    if d == [] then [] else Listed(d[..|d| - 1]) + d[|d| - 1].1
  }

  /** The total equals the number of listed codes. */
  lemma {:induction false} ListedLength(d: Dict<string, seq<string>>)
    ensures |Listed(d)| == TotalContracts(d)
  {
    if d != [] { ListedLength(d[..|d| - 1]); }
  }

  /** config_data of save_contract_config; update_time is the formatted clock reading. */
  function ConfigData(contracts: Dict<string, seq<string>>, updateTime: string): (c: ContractConfig)
    ensures c.totalSymbols == |Keys(contracts)| && c.totalContracts == |Listed(contracts)|
    ensures c.contracts == contracts && c.updateTime == updateTime
  {
    ListedLength(contracts);
    ContractConfig(updateTime, "优先下载合约配置，包含当前主力合约和未来合约", |contracts|,
                   TotalContracts(contracts), contracts)
  }

  /** save_contract_config: True and the file holds the config object when the write
      succeeds (the file system is the parameter `writes`), False otherwise. */
  function SaveContractConfig(contracts: Dict<string, seq<string>>, updateTime: string, writes: bool)
    : (r: (bool, Option<ContractConfig>))
    ensures r.0 <==> writes
    ensures r.0 ==> r.1 == Some(ConfigData(contracts, updateTime))
    ensures !r.0 ==> r.1 == None
  {
    if writes then (true, Some(ConfigData(contracts, updateTime))) else (false, None)
  }

  // ------------------------------------------------------------ show_contract_summary

  /** The exchange part parse_contract_symbol gives c ("" for None). */
  function ExchangeOf(c: string): string {
    if ContractParts(c).Ok? && ContractParts(c).value.Parts? then ContractParts(c).value.exchange else ""
  }

  /** The exchange parts of the codes of cs, in order. */
  function Exchanges(cs: seq<string>): (xs: seq<string>)
    ensures |xs| == |cs|
  {
    if cs == [] then [] else Exchanges(cs[..|cs| - 1]) + [ExchangeOf(cs[|cs| - 1])]
  }

  lemma ExchangesStep(ps: seq<string>, c: string)
    ensures Exchanges(ps + [c]) == Exchanges(ps) + [ExchangeOf(c)]
  {
    assert (ps + [c])[..|ps|] == ps;
  }

  /** The number of times e occurs in xs. */
  function Tally(xs: seq<string>, e: string): (n: nat)
    ensures n <= |xs|
  {
    if xs == [] then 0 else Tally(xs[..|xs| - 1], e) + (if xs[|xs| - 1] == e then 1 else 0)
  }

  /** The number of non-empty exchange parts in xs. */
  function WithExchange(xs: seq<string>): (n: nat)
    ensures n <= |xs|
  {
    if xs == [] then 0 else WithExchange(xs[..|xs| - 1]) + (if xs[|xs| - 1] != "" then 1 else 0)
  }

  /** A count is positive exactly for a part that occurs. */
  lemma {:induction false} TallyPositive(xs: seq<string>, e: string)
    ensures Tally(xs, e) > 0 <==> e in xs
  {
    if xs != [] {
      var n := |xs| - 1;
      TallyPositive(xs[..n], e);
      assert xs == xs[..n] + [xs[n]];
    }
  }

  /** stats is the tally of the exchange parts xs: its keys are the non-empty parts that
      occur, each mapped to the number of times it occurs. */
  ghost predicate Stats(stats: map<string, nat>, xs: seq<string>) {
    && (forall e :: e in stats <==> e != "" && e in xs)
    && (forall e :: e in stats ==> stats[e] == Tally(xs, e))
  }

  /** What show_contract_summary computes besides its printing. */
  datatype Summary = Summary(totalContracts: nat, exchangeStats: map<string, nat>)

  /** show_contract_summary: the listed total, and per exchange the number of listed codes on
      it; a code with two dots raises. */
  method ShowContractSummary(contracts: Dict<string, seq<string>>) returns (r: Result<Summary>)
    ensures r.Err? <==> !AllParse(Listed(contracts))
    ensures r.Ok? ==> r.value.totalContracts == TotalContracts(contracts)
    ensures r.Ok? ==> Stats(r.value.exchangeStats, Exchanges(Listed(contracts)))
  {
    var totalContracts := 0;
    var exchangeStats: map<string, nat> := map[];
    for i := 0 to |contracts|
      invariant totalContracts == TotalContracts(contracts[..i])
      invariant AllParse(Listed(contracts[..i]))
      invariant Stats(exchangeStats, Exchanges(Listed(contracts[..i])))
    {
      ListedStep(contracts, i);
      assert contracts[..i + 1][..i] == contracts[..i];
      var contractList := contracts[i].1;
      totalContracts := totalContracts + |contractList|;
      var counted := TallyList(exchangeStats, Listed(contracts[..i]), contractList);
      if counted.Err? {
        NotAllParse(contracts, i);
        return Err(counted.error);
      }
      exchangeStats := counted.value;
    }
    assert contracts[..|contracts|] == contracts;
    return Ok(Summary(totalContracts, exchangeStats));
  }

  lemma NotAllParse(contracts: Dict<string, seq<string>>, i: nat)
    requires i < |contracts| && !AllParse(Listed(contracts[..i]) + contracts[i].1)
    ensures !AllParse(Listed(contracts))
  {
    var ps := Listed(contracts[..i]) + contracts[i].1;
    var j :| 0 <= j < |ps| && Count(ps[j], '.') >= 2;
    ListedStep(contracts, i);
    ListedPrefix(contracts, i + 1, ps[j]);
    var k :| 0 <= k < |Listed(contracts)| && Listed(contracts)[k] == ps[j];
  }

  lemma ListedStep(d: Dict<string, seq<string>>, i: nat)
    requires i < |d|
    ensures Listed(d[..i + 1]) == Listed(d[..i]) + d[i].1
  {
    assert d[..i + 1][..i] == d[..i];
  }

  /** A code listed in a prefix of the dict is listed in the dict. */
  lemma {:induction false} ListedPrefix(d: Dict<string, seq<string>>, n: nat, c: string)
    requires n <= |d| && c in Listed(d[..n])
    ensures c in Listed(d)
  {
    if n < |d| {
      var m := |d| - 1;
      assert d[..m][..n] == d[..n];
      ListedPrefix(d[..m], n, c);
      assert d[..m] == d[..|d| - 1];
      assert Listed(d) == Listed(d[..m]) + d[m].1;
    } else {
      assert d[..n] == d;
    }
  }

  /** The inner loop over one contract list. */
  method TallyList(stats: map<string, nat>, ps: seq<string>, contractList: seq<string>)
    returns (r: Result<map<string, nat>>)
    requires AllParse(ps) && Stats(stats, Exchanges(ps))
    ensures r.Err? <==> !AllParse(ps + contractList)
    ensures r.Ok? ==> AllParse(ps + contractList) && Stats(r.value, Exchanges(ps + contractList))
  {
    var exchangeStats := stats;
    assert ps + contractList[..0] == ps;
    for j := 0 to |contractList|
      invariant AllParse(ps + contractList[..j])
      invariant Stats(exchangeStats, Exchanges(ps + contractList[..j]))
    {
      var parts := ParseContractSymbol(contractList[j]);
      if parts.Err? {
        assert (ps + contractList)[|ps| + j] == contractList[j];
        return Err(ValueError);
      }
      var exchange := if parts.value.Parts? then parts.value.exchange else "";
      assert exchange == ExchangeOf(contractList[j]);
      TallyListStep(ps, contractList, j);
      exchangeStats := TallyOne(exchangeStats, Exchanges(ps + contractList[..j]), exchange);
    }
    assert contractList[..|contractList|] == contractList;
    return Ok(exchangeStats);
  }

  /** One more code that parses, with its exchange part. */
  lemma TallyListStep(ps: seq<string>, cs: seq<string>, j: nat)
    requires j < |cs| && AllParse(ps + cs[..j]) && Parses(cs[j])
    ensures AllParse(ps + cs[..j + 1])
    ensures Exchanges(ps + cs[..j + 1]) == Exchanges(ps + cs[..j]) + [ExchangeOf(cs[j])]
  {
    var qs := ps + cs[..j];
    assert ps + cs[..j + 1] == qs + [cs[j]];
    assert forall i :: 0 <= i < |qs| ==> (qs + [cs[j]])[i] == qs[i];
    ExchangesStep(qs, cs[j]);
  }

  /** if exchange: exchange_stats[exchange] += 1, the entry starting at 0. */
  method TallyOne(stats: map<string, nat>, ghost xs: seq<string>, x: string)
    returns (stats': map<string, nat>)
    requires Stats(stats, xs)
    ensures Stats(stats', xs + [x])
  {
    stats' := stats;
    if x != "" {
      if x !in stats' {
        stats' := stats'[x := 0];
      }
      stats' := stats'[x := stats'[x] + 1];
    }
    TallyStep(xs, x);
    forall e | e in stats' ensures stats'[e] == Tally(xs + [x], e) {
      TallyPositive(xs, e);
    }
  }

  /** The counts after one more exchange part. */
  lemma TallyStep(xs: seq<string>, x: string)
    ensures forall e :: Tally(xs + [x], e) == Tally(xs, e) + (if x == e then 1 else 0)
    ensures WithExchange(xs + [x]) == WithExchange(xs) + (if x != "" then 1 else 0)
  {
    assert (xs + [x])[..|xs|] == xs;
  }

  // ------------------------------------------------------------ the sum of the tally

  /** The sum of the counts of the keys ks (the order of sorted(exchange_stats.items())
      or any other listing of the keys). */
  function SumOver(stats: map<string, nat>, ks: seq<string>): nat
    requires forall k :: k in ks ==> k in stats
  {
    if ks == [] then 0 else stats[ks[0]] + SumOver(stats, ks[1..])
  }

  /** The per-exchange counts add up to the number of codes with a non-empty exchange part,
      which is at most the number of codes. */
  lemma TallySum(stats: map<string, nat>, xs: seq<string>, ks: seq<string>)
    requires Stats(stats, xs) && NoRepeats(ks) && forall k :: k in ks <==> k in stats
    ensures SumOver(stats, ks) == WithExchange(xs) <= |xs|
  {
    SumOverTallies(stats, xs, ks);
    SumTallies(xs, ks);
  }

  function Tallies(xs: seq<string>, ks: seq<string>): nat {
    if ks == [] then 0 else Tally(xs, ks[0]) + Tallies(xs, ks[1..])
  }

  lemma {:induction false} SumOverTallies(stats: map<string, nat>, xs: seq<string>, ks: seq<string>)
    requires Stats(stats, xs) && forall k :: k in ks ==> k in stats
    ensures SumOver(stats, ks) == Tallies(xs, ks)
  {
    if ks != [] { SumOverTallies(stats, xs, ks[1..]); }
  }

  lemma {:induction false} SumTallies(xs: seq<string>, ks: seq<string>)
    requires NoRepeats(ks) && "" !in ks
    requires forall x :: x in xs && x != "" ==> x in ks
    ensures Tallies(xs, ks) == WithExchange(xs)
  {
    if xs != [] {
      var n := |xs| - 1;
      assert xs == xs[..n] + [xs[n]];
      assert xs[n] in ks <==> xs[n] != "";
      SumTallies(xs[..n], ks);
      TalliesStep(xs[..n], xs[n], ks);
      TallyStep(xs[..n], xs[n]);
    } else {
      TalliesEmpty(ks);
    }
  }

  lemma {:induction false} TalliesEmpty(ks: seq<string>)
    ensures Tallies([], ks) == 0
  {
    if ks != [] { TalliesEmpty(ks[1..]); }
  }

  lemma {:induction false} TalliesStep(xs: seq<string>, x: string, ks: seq<string>)
    requires NoRepeats(ks)
    ensures Tallies(xs + [x], ks) == Tallies(xs, ks) + (if x in ks then 1 else 0)
  {
    TallyStep(xs, x);
    if ks != [] {
      assert NoRepeats(ks[1..]) by {
        forall i, j | 0 <= i < j < |ks[1..]| ensures ks[1..][i] != ks[1..][j] {
          assert ks[1..][i] == ks[i + 1] && ks[1..][j] == ks[j + 1];
        }
      }
      TalliesStep(xs, x, ks[1..]);
      assert x == ks[0] ==> x !in ks[1..];
      assert x in ks <==> x == ks[0] || x in ks[1..];
    }
  }
}
