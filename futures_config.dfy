/** Futures product table and contract-code generation (config/futures_config.py).
    Only the exchange and the active delivery months of each product are modelled;
    the base date is passed in as a year and a month. */
module FuturesConfig {
  import opened Wrappers
  import opened Text
  import opened Decimal

  datatype Exchange = SHFE | DCE | CZCE | CFFEX | INE | GFEX

  /** Exchange.value: the suffix written after the dot of a contract code. */
  function ExchangeValue(e: Exchange): (r: string)
    ensures r == "CFFEX" <==> e == CFFEX
    ensures r == "CZCE" <==> e == CZCE
    ensures '.' !in r && |r| > 0
  {
    match e
    case SHFE => "SHFE"
    case DCE => "DCE"
    case CZCE => "CZCE"
    case CFFEX => "CFFEX"
    case INE => "INE"
    case GFEX => "GFEX"
  }

  /** The active_months lists that occur in the table. */
  datatype MonthPlan = AllMonths | EvenMonths | OddMonths | JanMayOct | JanMaySep
                     | QuarterMonths | AppleMonths | JujubeMonths

  function PlanMonths(p: MonthPlan): (ms: seq<nat>)
    ensures ValidMonths(ms) && |ms| > 0
  {
    var ms: seq<nat> := match p
      case AllMonths => [1, 2, 3, 4, 5, 6, 7, 8, 9, 10, 11, 12]
      case EvenMonths => [2, 4, 6, 8, 10, 12]
      case OddMonths => [1, 3, 5, 7, 9, 11]
      case JanMayOct => [1, 5, 10]
      case JanMaySep => [1, 5, 9]
      case QuarterMonths => [3, 6, 9, 12]
      case AppleMonths => [1, 3, 5, 10, 11]
      case JujubeMonths => [1, 3, 5, 7, 9];
    MonthsInOrderValid(ms);
    ms
  }

  /** ValidMonths, checked one neighbouring pair at a time. */
  predicate MonthsInOrder(ms: seq<nat>) {
    |ms| == 0 || (1 <= ms[0] <= 12 && (|ms| == 1 || ms[0] < ms[1]) && MonthsInOrder(ms[1..]))
  }

  lemma {:induction false} MonthsInOrderValid(ms: seq<nat>)
    requires MonthsInOrder(ms)
    ensures ValidMonths(ms)
  {
    if |ms| > 0 {
      MonthsInOrderValid(ms[1..]);
      assert forall i :: 0 < i < |ms| ==> ms[i] == ms[1..][i - 1];
    }
  }

  datatype FuturesInfo = FuturesInfo(exchange: Exchange, plan: MonthPlan) {
    function ActiveMonths(): seq<nat> { PlanMonths(plan) }
  }

  /** FUTURES_INFO, restricted to exchange and active_months. */
  const FuturesInfoTable: map<string, FuturesInfo> := map[
    "rb" := FuturesInfo(SHFE, JanMayOct),
    "hc" := FuturesInfo(SHFE, JanMayOct),
    "cu" := FuturesInfo(SHFE, AllMonths),
    "ad" := FuturesInfo(SHFE, AllMonths),
    "al" := FuturesInfo(SHFE, AllMonths),
    "zn" := FuturesInfo(SHFE, AllMonths),
    "au" := FuturesInfo(SHFE, EvenMonths),
    "ag" := FuturesInfo(SHFE, EvenMonths),
    "ni" := FuturesInfo(SHFE, AllMonths),
    "sn" := FuturesInfo(SHFE, AllMonths),
    "pb" := FuturesInfo(SHFE, AllMonths),
    "wr" := FuturesInfo(SHFE, JanMayOct),
    "bu" := FuturesInfo(SHFE, AllMonths),
    "ru" := FuturesInfo(SHFE, JanMaySep),
    "sp" := FuturesInfo(SHFE, OddMonths),
    "ss" := FuturesInfo(SHFE, AllMonths),
    "fu" := FuturesInfo(SHFE, AllMonths),
    "ao" := FuturesInfo(SHFE, AllMonths),
    "br" := FuturesInfo(SHFE, AllMonths),
    "i" := FuturesInfo(DCE, JanMaySep),
    "j" := FuturesInfo(DCE, JanMaySep),
    "jm" := FuturesInfo(DCE, JanMaySep),
    "m" := FuturesInfo(DCE, JanMaySep),
    "y" := FuturesInfo(DCE, JanMaySep),
    "a" := FuturesInfo(DCE, OddMonths),
    "b" := FuturesInfo(DCE, OddMonths),
    "c" := FuturesInfo(DCE, OddMonths),
    "cs" := FuturesInfo(DCE, OddMonths),
    "l" := FuturesInfo(DCE, OddMonths),
    "v" := FuturesInfo(DCE, OddMonths),
    "p" := FuturesInfo(DCE, OddMonths),
    "pp" := FuturesInfo(DCE, OddMonths),
    "fb" := FuturesInfo(DCE, OddMonths),
    "bb" := FuturesInfo(DCE, OddMonths),
    "jd" := FuturesInfo(DCE, OddMonths),
    "lh" := FuturesInfo(DCE, OddMonths),
    "rr" := FuturesInfo(DCE, OddMonths),
    "eg" := FuturesInfo(DCE, OddMonths),
    "eb" := FuturesInfo(DCE, OddMonths),
    "pg" := FuturesInfo(DCE, OddMonths),
    "lg" := FuturesInfo(DCE, OddMonths),
    "bz" := FuturesInfo(DCE, OddMonths),
    "MA" := FuturesInfo(CZCE, JanMaySep),
    "TA" := FuturesInfo(CZCE, JanMaySep),
    "CF" := FuturesInfo(CZCE, JanMaySep),
    "SR" := FuturesInfo(CZCE, JanMaySep),
    "RM" := FuturesInfo(CZCE, JanMaySep),
    "OI" := FuturesInfo(CZCE, JanMaySep),
    "FG" := FuturesInfo(CZCE, JanMaySep),
    "WH" := FuturesInfo(CZCE, JanMaySep),
    "PM" := FuturesInfo(CZCE, JanMaySep),
    "RI" := FuturesInfo(CZCE, JanMaySep),
    "LR" := FuturesInfo(CZCE, JanMaySep),
    "JR" := FuturesInfo(CZCE, JanMaySep),
    "SF" := FuturesInfo(CZCE, OddMonths),
    "SM" := FuturesInfo(CZCE, OddMonths),
    "RS" := FuturesInfo(CZCE, OddMonths),
    "CY" := FuturesInfo(CZCE, OddMonths),
    "AP" := FuturesInfo(CZCE, AppleMonths),
    "CJ" := FuturesInfo(CZCE, JujubeMonths),
    "UR" := FuturesInfo(CZCE, JanMaySep),
    "SA" := FuturesInfo(CZCE, JanMaySep),
    "PF" := FuturesInfo(CZCE, OddMonths),
    "PK" := FuturesInfo(CZCE, OddMonths),
    "PL" := FuturesInfo(CZCE, OddMonths),
    "PR" := FuturesInfo(CZCE, OddMonths),
    "SH" := FuturesInfo(CZCE, JanMaySep),
    "PX" := FuturesInfo(CZCE, OddMonths),
    "ZC" := FuturesInfo(CZCE, JanMaySep),
    "IF" := FuturesInfo(CFFEX, QuarterMonths),
    "IC" := FuturesInfo(CFFEX, QuarterMonths),
    "IH" := FuturesInfo(CFFEX, QuarterMonths),
    "IM" := FuturesInfo(CFFEX, QuarterMonths),
    "T" := FuturesInfo(CFFEX, QuarterMonths),
    "TF" := FuturesInfo(CFFEX, QuarterMonths),
    "TL" := FuturesInfo(CFFEX, QuarterMonths),
    "TS" := FuturesInfo(CFFEX, QuarterMonths),
    "sc" := FuturesInfo(INE, AllMonths),
    "lu" := FuturesInfo(INE, AllMonths),
    "nr" := FuturesInfo(INE, AllMonths),
    "bc" := FuturesInfo(INE, AllMonths),
    "ec" := FuturesInfo(INE, AllMonths),
    "si" := FuturesInfo(GFEX, OddMonths),
    "lc" := FuturesInfo(GFEX, OddMonths),
    "ps" := FuturesInfo(GFEX, OddMonths)

  ]

  /** Calendar months, each once, in ascending order. */
  predicate ValidMonths(ms: seq<nat>) {
    && (forall i :: 0 <= i < |ms| ==> 1 <= ms[i] <= 12)
    && (forall i :: 0 <= i < |ms| - 1 ==> ms[i] < ms[i + 1])
  }

  /** Ascending neighbours make the whole list ascending. */
  lemma {:induction false} ValidMonthsAscending(ms: seq<nat>, i: int, j: int)
    requires ValidMonths(ms) && 0 <= i < j < |ms|
    ensures ms[i] < ms[j]
    decreases j - i
  {
    if i + 1 < j { ValidMonthsAscending(ms, i + 1, j); }
  }

  /** get_futures_info: the product's entry, None for `{}`. */
  function GetFuturesInfo(symbol: string): (r: Option<FuturesInfo>)
    ensures r.None? <==> symbol !in FuturesInfoTable
    ensures r.Some? ==> r.value == FuturesInfoTable[symbol]
  {
    if symbol in FuturesInfoTable then Some(FuturesInfoTable[symbol]) else None
  }

  // ------------------------------------------------------------ generate_contract_months

  datatype YearMonth = YearMonth(year: nat, month: nat)

  /** Months since the start of year 0: consecutive calendar months have consecutive serials. */
  function Serial(ym: YearMonth): int { ym.year * 12 + ym.month }

  /** The month i months after (year, month): year + (month + i - 1) // 12, (month + i - 1) % 12 + 1. */
  function MonthAt(year: nat, month: nat, i: nat): (ym: YearMonth)
    requires 1 <= month <= 12
    ensures 1 <= ym.month <= 12 && ym.year >= year
    ensures Serial(ym) == year * 12 + month + i
  {
    YearMonth(year + (month + i - 1) / 12, (month + i - 1) % 12 + 1)
  }

  /** The active months among the first n months from (year, month) inclusive, in order. */
  function ActiveWithin(active: seq<nat>, year: nat, month: nat, n: nat): (r: seq<YearMonth>)
    requires 1 <= month <= 12
    ensures |r| <= n
    ensures forall k :: 0 <= k < |r| ==> r[k].month in active && 1 <= r[k].month <= 12
  {
    if n == 0 then []
    else
      var ym := MonthAt(year, month, n - 1);
      ActiveWithin(active, year, month, n - 1) + (if ym.month in active then [ym] else [])
  }

  /** What the scan finds lies in the window, in increasing order, and it misses no
      active month of the window. */
  lemma {:induction false} ActiveWithinShape(active: seq<nat>, year: nat, month: nat, n: nat)
    requires 1 <= month <= 12
    ensures forall k :: 0 <= k < |ActiveWithin(active, year, month, n)| ==>
              year * 12 + month <= Serial(ActiveWithin(active, year, month, n)[k]) < year * 12 + month + n
    ensures forall j, k :: 0 <= j < k < |ActiveWithin(active, year, month, n)| ==>
              Serial(ActiveWithin(active, year, month, n)[j]) < Serial(ActiveWithin(active, year, month, n)[k])
    ensures forall i :: 0 <= i < n && MonthAt(year, month, i).month in active ==>
              MonthAt(year, month, i) in ActiveWithin(active, year, month, n)
  {
    if n > 0 {
      ActiveWithinShape(active, year, month, n - 1);
      var ym := MonthAt(year, month, n - 1);
      var prev := ActiveWithin(active, year, month, n - 1);
      var r := ActiveWithin(active, year, month, n);
      assert r == prev + (if ym.month in active then [ym] else []);
      assert forall k :: 0 <= k < |prev| ==> r[k] == prev[k];
      assert |r| > |prev| ==> r[|prev|] == ym;
      forall j, k | 0 <= j < k < |r| ensures Serial(r[j]) < Serial(r[k]) {
        if k < |prev| {
          assert r[j] == prev[j] && r[k] == prev[k];
        } else {
          assert r[j] == prev[j] && r[k] == ym;
        }
      }
      forall i | 0 <= i < n && MonthAt(year, month, i).month in active ensures MonthAt(year, month, i) in r {
        if i < n - 1 {
          assert MonthAt(year, month, i) in prev;
        }
      }
    }
  }

  /** Scanning further only extends what was found. */
  lemma {:induction false} ActiveWithinPrefix(active: seq<nat>, year: nat, month: nat, n1: nat, n2: nat)
    requires 1 <= month <= 12 && n1 <= n2
    ensures ActiveWithin(active, year, month, n1) <= ActiveWithin(active, year, month, n2)
    decreases n2 - n1
  {
    if n1 < n2 { ActiveWithinPrefix(active, year, month, n1, n2 - 1); }
  }

  function Min(a: nat, b: nat): nat { if a <= b then a else b }

  /** Python's s[:n]. */
  function Take<T>(s: seq<T>, n: nat): (r: seq<T>)
    ensures |r| == Min(|s|, n) && r == s[..|r|]
  {
    if |s| <= n then s else s[..n]
  }

  /** Once the scan of the first n months has found min(len(active), 6) months, or has
      covered all 24 months, what was found is the final answer. */
  lemma ContractMonthsFound(active: seq<nat>, year: nat, month: nat, n: nat)
    requires 1 <= month <= 12 && n <= 24
    requires |ActiveWithin(active, year, month, n)| == Min(|active|, 6) ||
             (n == 24 && |ActiveWithin(active, year, month, n)| <= Min(|active|, 6))
    ensures ContractMonths(active, year, month) == ActiveWithin(active, year, month, n)
  {
    ActiveWithinPrefix(active, year, month, n, 24);
  }

  /** The months generate_contract_months turns into codes: the first min(len(active), 6)
      active months of the 24 starting with the start month. */
  function ContractMonths(active: seq<nat>, year: nat, month: nat): seq<YearMonth>
    requires 1 <= month <= 12
  {
    Take(ActiveWithin(active, year, month, 24), Min(|active|, 6))
  }

  /** Cutting a list that ascends by Serial keeps every entry up to the last one kept. */
  lemma TakeKeepsEarlier(all: seq<YearMonth>, c: nat, ym: YearMonth)
    requires forall j, k :: 0 <= j < k < |all| ==> Serial(all[j]) < Serial(all[k])
    requires ym in all
    requires |Take(all, c)| < c || (|Take(all, c)| > 0 && Serial(ym) <= Serial(Take(all, c)[|Take(all, c)| - 1]))
    ensures ym in Take(all, c)
  {
    var r := Take(all, c);
    var k :| 0 <= k < |all| && all[k] == ym;
    if k < |r| {
      assert r[k] == ym;
    }
  }

  /** At most min(len(active_months), 6) months, each active, strictly increasing from the
      start month inclusive, and no active month of the window skipped before the last one. */
  lemma ContractMonthsShape(active: seq<nat>, year: nat, month: nat)
    requires 1 <= month <= 12
    ensures var r := ContractMonths(active, year, month);
            && |r| <= Min(|active|, 6)
            && (forall k :: 0 <= k < |r| ==> r[k].month in active && 1 <= r[k].month <= 12)
            && (forall k :: 0 <= k < |r| ==> year * 12 + month <= Serial(r[k]) < year * 12 + month + 24)
            && (forall j, k :: 0 <= j < k < |r| ==> Serial(r[j]) < Serial(r[k]))
            && (forall i :: 0 <= i < 24 && MonthAt(year, month, i).month in active &&
                  (|r| < Min(|active|, 6) || (|r| > 0 && Serial(MonthAt(year, month, i)) <= Serial(r[|r| - 1])))
                  ==> MonthAt(year, month, i) in r)
  {
    var all := ActiveWithin(active, year, month, 24);
    ActiveWithinShape(active, year, month, 24);
    var r := ContractMonths(active, year, month);
    forall i | 0 <= i < 24 && MonthAt(year, month, i).month in active &&
                (|r| < Min(|active|, 6) || (|r| > 0 && Serial(MonthAt(year, month, i)) <= Serial(r[|r| - 1])))
      ensures MonthAt(year, month, i) in r
    {
      TakeKeepsEarlier(all, Min(|active|, 6), MonthAt(year, month, i));
    }
  }

  /** The code of a dated contract: symbol + str(year)[-2:] + f"{month:02d}". */
  function ContractCode(symbol: string, ym: YearMonth): string
    requires 1 <= ym.month <= 12
  {
    symbol + LastChars(NatToString(ym.year), 2) + Pad2(ym.month)
  }

  /** From year 10 on, the code is the symbol, two year digits and two month digits. */
  lemma ContractCodeFormat(symbol: string, ym: YearMonth)
    requires 1 <= ym.month <= 12 && ym.year >= 10
    ensures var c := ContractCode(symbol, ym);
            && |c| == |symbol| + 4 && c[..|symbol|] == symbol
            && c[|symbol|..|symbol| + 2] == [Digit(ym.year / 10 % 10), Digit(ym.year % 10)]
            && AllDigits(c[|symbol| + 2..]) && DigitsValue(c[|symbol| + 2..]) == ym.month
  {
    TwoDigitSuffix(ym.year);
    var c := ContractCode(symbol, ym);
    assert c == symbol + [Digit(ym.year / 10 % 10), Digit(ym.year % 10)] + Pad2(ym.month);
    assert c[|symbol| + 2..] == Pad2(ym.month);
  }

  function Codes(symbol: string, yms: seq<YearMonth>): (r: seq<string>)
    requires forall k :: 0 <= k < |yms| ==> 1 <= yms[k].month <= 12
    ensures |r| == |yms| && forall k :: 0 <= k < |yms| ==> r[k] == ContractCode(symbol, yms[k])
  {
    seq(|yms|, k requires 0 <= k < |yms| => ContractCode(symbol, yms[k]))
  }

  lemma CodesAppend(symbol: string, yms: seq<YearMonth>, ym: YearMonth)
    requires forall k :: 0 <= k < |yms| ==> 1 <= yms[k].month <= 12
    requires 1 <= ym.month <= 12
    ensures Codes(symbol, yms + [ym]) == Codes(symbol, yms) + [ContractCode(symbol, ym)]
  {
    var a := Codes(symbol, yms + [ym]);
    var b := Codes(symbol, yms) + [ContractCode(symbol, ym)];
    forall k | 0 <= k < |a| ensures a[k] == b[k] {
      if k < |yms| { assert (yms + [ym])[k] == yms[k]; }
    }
  }

  /** generate_contract_months: scan 24 months from the start month, keep the active ones,
      stop once min(len(active_months), 6) codes are found. */
  method GenerateContractMonths(symbol: string, year: nat, month: nat) returns (contracts: seq<string>)
    requires 1 <= month <= 12
    ensures symbol !in FuturesInfoTable ==> contracts == []
    ensures symbol in FuturesInfoTable ==>
              contracts == Codes(symbol, ContractMonths(FuturesInfoTable[symbol].ActiveMonths(), year, month))
  {
    var info := GetFuturesInfo(symbol);
    if info.None? {
      return [];
    }
    contracts := ScanContractMonths(symbol, info.value.ActiveMonths(), year, month);
  }

  /** The loop of generate_contract_months over a product's active months. */
  method ScanContractMonths(symbol: string, active: seq<nat>, year: nat, month: nat) returns (contracts: seq<string>)
    requires 1 <= month <= 12
    ensures contracts == Codes(symbol, ContractMonths(active, year, month))
  {
    contracts := [];
    var foundContracts := 0;
    var maxContracts := Min(|active|, 6);
    ghost var found: seq<YearMonth> := [];
    var i := 0;
    // the `break` once found_contracts >= max_contracts becomes part of the loop guard
    while i < 24 && foundContracts < maxContracts
      invariant 0 <= i <= 24
      invariant found == ActiveWithin(active, year, month, i)
      invariant contracts == Codes(symbol, found) && foundContracts == |found|
      invariant foundContracts <= maxContracts
    {
      var y := year + (month + i - 1) / 12;
      var m := (month + i - 1) % 12 + 1;
      assert YearMonth(y, m) == MonthAt(year, month, i);
      if m in active {
        CodesAppend(symbol, found, YearMonth(y, m));
        contracts := contracts + [ContractCode(symbol, YearMonth(y, m))];
        found := found + [YearMonth(y, m)];
        foundContracts := foundContracts + 1;
      }
      i := i + 1;
    }
    ContractMonthsFound(active, year, month, i);
  }

  // ------------------------------------------------------------ get_active_contracts

  datatype ActiveContracts = ActiveContracts(
    monthContracts: seq<string>, continuousContract: string,
    weightedContract: string, allContracts: seq<string>)

  /** symbol + "9999." + exchange, the main continuous contract. */
  function ContinuousCode(symbol: string, ex: Exchange): string { symbol + "9999." + ExchangeValue(ex) }

  /** symbol + "8888." + exchange, the index (weighted) contract. */
  function WeightedCode(symbol: string, ex: Exchange): string { symbol + "8888." + ExchangeValue(ex) }

  /** get_active_contracts: the dated codes with ".EXCHANGE" appended, then the continuous
      and the weighted contract; None for a product the table does not list. */
  function GetActiveContracts(symbol: string, year: nat, month: nat): (r: Option<ActiveContracts>)
    requires 1 <= month <= 12
    ensures r.None? <==> symbol !in FuturesInfoTable
    ensures r.Some? ==>
              r.value == ActiveContractsFor(symbol, FuturesInfoTable[symbol].exchange,
                                            FuturesInfoTable[symbol].ActiveMonths(), year, month)
  {
    match GetFuturesInfo(symbol)
    case None => None
    case Some(info) => Some(ActiveContractsFor(symbol, info.exchange, info.ActiveMonths(), year, month))
  }

  /** get_active_contracts for a listed product, on its exchange and with its active months:
      one code per month the scan finds (at most six), then 9999 and 8888. */
  function ActiveContractsFor(symbol: string, ex: Exchange, active: seq<nat>, year: nat, month: nat): (r: ActiveContracts)
    requires 1 <= month <= 12
    ensures |r.monthContracts| == |ContractMonths(active, year, month)|
    ensures |ContractMonths(active, year, month)| <= 6
    ensures forall k :: 0 <= k < |ContractMonths(active, year, month)| ==>
              r.monthContracts[k] == ContractCode(symbol, ContractMonths(active, year, month)[k]) + "." + ExchangeValue(ex)
    ensures r.continuousContract == ContinuousCode(symbol, ex) && r.weightedContract == WeightedCode(symbol, ex)
    ensures r.allContracts == r.monthContracts + [r.continuousContract, r.weightedContract]
  {
    var months := ContractMonths(active, year, month);
    ContractMonthsBound(active, year, month);
    var dated := WithSuffix(Codes(symbol, months), "." + ExchangeValue(ex));
    var continuous := ContinuousCode(symbol, ex);
    var weighted := WeightedCode(symbol, ex);
    ActiveContracts(dated, continuous, weighted, dated + [continuous, weighted])
  }

  /** At most six months, each a calendar month. */
  lemma ContractMonthsBound(active: seq<nat>, year: nat, month: nat)
    requires 1 <= month <= 12
    ensures |ContractMonths(active, year, month)| <= 6
    ensures forall k :: 0 <= k < |ContractMonths(active, year, month)| ==> 1 <= ContractMonths(active, year, month)[k].month <= 12
  {
    ContractMonthsShape(active, year, month);
  }

  /** [c + suffix for c in codes]. */
  function WithSuffix(codes: seq<string>, suffix: string): (r: seq<string>)
    ensures |r| == |codes| && forall k :: 0 <= k < |codes| ==> r[k] == codes[k] + suffix
  {
    if codes == [] then [] else [codes[0] + suffix] + WithSuffix(codes[1..], suffix)
  }

  // ------------------------------------------------------------ get_priority_contracts

  /** The CFFEX scan's month: (month + i) % 12 with 0 read as 12. */
  function CheckMonth(month: nat, i: nat): nat {
    if (month + i) % 12 == 0 then 12 else (month + i) % 12
  }

  /** The CFFEX scan's year: year + (month + i - 1) // 12. */
  function CheckYear(year: nat, month: nat, i: nat): nat
    requires month >= 1
  {
    year + (month + i - 1) / 12
  }

  /** The two formulas name the same calendar month as generate_contract_months does. */
  lemma CheckMonthIsCalendarMonth(year: nat, month: nat, i: nat)
    requires 1 <= month <= 12
    ensures YearMonth(CheckYear(year, month, i), CheckMonth(month, i)) == MonthAt(year, month, i)
  {
  }

  /** check_year > current_year or check_month > current_month. */
  predicate IsFuture(ym: YearMonth, year: nat, month: nat) {
    ym.year > year || ym.month > month
  }

  /** Over the scanned window the test means "strictly after the base month". */
  lemma IsFutureMeansLater(year: nat, month: nat, i: nat)
    requires 1 <= month <= 12
    ensures IsFuture(MonthAt(year, month, i), year, month) <==> i >= 1
    ensures IsFuture(MonthAt(year, month, i), year, month) <==> Serial(MonthAt(year, month, i)) > year * 12 + month
  {
  }

  /** The active months among months 1 .. n-1 after the base month, in order: the scan
      of generate_contract_months started one month later. */
  function FutureActive(active: seq<nat>, year: nat, month: nat, n: nat): (r: seq<YearMonth>)
    requires 1 <= month <= 12
    ensures forall k :: 0 <= k < |r| ==> r[k].month in active && 1 <= r[k].month <= 12
  {
    if n == 0 then []
    else
      var next := MonthAt(year, month, 1);
      ActiveWithin(active, next.year, next.month, n - 1)
  }

  /** Counting from the next month is counting from the base month, one further. */
  lemma MonthAtNext(year: nat, month: nat, i: nat)
    requires 1 <= month <= 12
    ensures var next := MonthAt(year, month, 1);
            MonthAt(next.year, next.month, i) == MonthAt(year, month, i + 1)
  {
  }

  /** What the CFFEX scan finds lies in the window after the base month, in increasing
      order, and it misses no active month there. */
  lemma FutureActiveShape(active: seq<nat>, year: nat, month: nat, n: nat)
    requires 1 <= month <= 12
    ensures var r := FutureActive(active, year, month, n);
            && (forall k :: 0 <= k < |r| ==> year * 12 + month < Serial(r[k]) < year * 12 + month + n)
            && (forall j, k :: 0 <= j < k < |r| ==> Serial(r[j]) < Serial(r[k]))
            && (forall i :: 1 <= i < n && MonthAt(year, month, i).month in active ==> MonthAt(year, month, i) in r)
  {
    if n > 0 {
      var next := MonthAt(year, month, 1);
      ActiveWithinShape(active, next.year, next.month, n - 1);
      forall i | 1 <= i < n ensures MonthAt(year, month, i) == MonthAt(next.year, next.month, i - 1) {
        MonthAtNext(year, month, i - 1);
      }
    }
  }

  /** found_months: the first two of them within 24 months. */
  function CffexMonths(active: seq<nat>, year: nat, month: nat): seq<YearMonth>
    requires 1 <= month <= 12
  {
    Take(FutureActive(active, year, month, 24), 2)
  }

  /** At most two months, each a calendar month. */
  lemma CffexMonthsBound(active: seq<nat>, year: nat, month: nat)
    requires 1 <= month <= 12
    ensures |CffexMonths(active, year, month)| <= 2
    ensures forall k :: 0 <= k < |CffexMonths(active, year, month)| ==> 1 <= CffexMonths(active, year, month)[k].month <= 12
  {
    var all := FutureActive(active, year, month, 24);
    var r := CffexMonths(active, year, month);
    forall k | 0 <= k < |r| ensures 1 <= r[k].month <= 12 {
      assert r[k] == all[k];
    }
  }

  /** At most two dated CFFEX contracts, each active, strictly after the base month and
      within two years of it, in increasing order, and no earlier active month passed over. */
  lemma CffexMonthsShape(active: seq<nat>, year: nat, month: nat)
    requires 1 <= month <= 12
    ensures |CffexMonths(active, year, month)| <= 2
    ensures forall k :: 0 <= k < |CffexMonths(active, year, month)| ==>
              && CffexMonths(active, year, month)[k].month in active
              && year * 12 + month < Serial(CffexMonths(active, year, month)[k]) < year * 12 + month + 24
    ensures forall j, k :: 0 <= j < k < |CffexMonths(active, year, month)| ==>
              Serial(CffexMonths(active, year, month)[j]) < Serial(CffexMonths(active, year, month)[k])
    ensures forall i :: 1 <= i < 24 && MonthAt(year, month, i).month in active &&
              (|CffexMonths(active, year, month)| < 2 ||
               Serial(MonthAt(year, month, i)) <= Serial(CffexMonths(active, year, month)[1]))
              ==> MonthAt(year, month, i) in CffexMonths(active, year, month)
  {
    var all := FutureActive(active, year, month, 24);
    FutureActiveShape(active, year, month, 24);
    var r := CffexMonths(active, year, month);
    assert forall k :: 0 <= k < |r| ==> r[k] == all[k];
    forall i | 1 <= i < 24 && MonthAt(year, month, i).month in active &&
                (|r| < 2 || Serial(MonthAt(year, month, i)) <= Serial(r[1]))
      ensures MonthAt(year, month, i) in r
    {
      TakeKeepsEarlier(all, 2, MonthAt(year, month, i));
    }
  }

  /** One step of the CFFEX scan: a month is kept only while fewer than two are kept. */
  lemma CffexStep(active: seq<nat>, year: nat, month: nat, i: nat)
    requires 1 <= month <= 12
    ensures var before := Take(FutureActive(active, year, month, i), 2);
            var ym := MonthAt(year, month, i);
            Take(FutureActive(active, year, month, i + 1), 2)
              == if ym.month in active && |before| < 2 && IsFuture(ym, year, month) then before + [ym] else before
  {
    var ym := MonthAt(year, month, i);
    FutureActiveStep(active, year, month, i);
    IsFutureMeansLater(year, month, i);
    TakeAppendOne(FutureActive(active, year, month, i), if i >= 1 && ym.month in active then [ym] else [], 2);
  }

  /** The scan from the next month gains month i once i >= 1. */
  lemma FutureActiveStep(active: seq<nat>, year: nat, month: nat, i: nat)
    requires 1 <= month <= 12
    ensures FutureActive(active, year, month, i + 1)
         == FutureActive(active, year, month, i)
            + (if i >= 1 && MonthAt(year, month, i).month in active then [MonthAt(year, month, i)] else [])
  {
    if i >= 1 {
      MonthAtNext(year, month, i - 1);
    }
  }

  lemma TakeAppendOne<T>(s: seq<T>, x: seq<T>, n: nat)
    requires |x| <= 1
    ensures Take(s + x, n) == if |s| < n then s + x else Take(s, n)
  {
    if |s| >= n {
      assert (s + x)[..n] == s[..n];
    }
  }

  /** The CFFEX loop of get_priority_contracts over range(24). */
  method CffexScan(active: seq<nat>, year: nat, month: nat) returns (foundMonths: seq<YearMonth>)
    requires 1 <= month <= 12
    ensures foundMonths == CffexMonths(active, year, month)
  {
    foundMonths := [];
    for i := 0 to 24
      invariant foundMonths == Take(FutureActive(active, year, month, i), 2)
    {
      foundMonths := CffexScanStep(active, year, month, i, foundMonths);
    }
  }

  /** One pass of that loop: check_month and check_year, then the test. */
  method CffexScanStep(active: seq<nat>, year: nat, month: nat, i: nat, foundMonths: seq<YearMonth>)
    returns (next: seq<YearMonth>)
    requires 1 <= month <= 12
    requires foundMonths == Take(FutureActive(active, year, month, i), 2)
    ensures next == Take(FutureActive(active, year, month, i + 1), 2)
  {
    var checkMonth := (month + i) % 12;
    if checkMonth == 0 {
      checkMonth := 12;
    }
    var checkYear := year + (month + i - 1) / 12;
    CheckMonthIsCalendarMonth(year, month, i);
    assert YearMonth(checkYear, checkMonth) == MonthAt(year, month, i);
    CffexStep(active, year, month, i);
    next := foundMonths;
    if checkMonth in active && |foundMonths| < 2 {
      if checkYear > year || checkMonth > month {
        next := foundMonths + [YearMonth(checkYear, checkMonth)];
      }
    }
  }

  /** Month number start_month + i, brought back into 1..12. */
  function WrapMonth(t: int): int { if t > 12 then t - 12 else t }

  /** How many months after `month` the calendar month t comes, 1 .. 12. */
  function Offset(month: nat, t: int): int { if t > month then t - month else t + 12 - month }

  /** The active months among the n calendar months after `month`, in calendar order. */
  function NextMonthsActive(active: seq<nat>, month: nat, n: nat): (r: seq<nat>)
    requires 1 <= month <= 12 && n <= 6
    ensures |r| <= n
    ensures forall k :: 0 <= k < |r| ==> r[k] in active && 1 <= Offset(month, r[k]) <= n
    ensures forall j, k :: 0 <= j < k < |r| ==> Offset(month, r[j]) < Offset(month, r[k])
  {
    if n == 0 then []
    else
      var t := WrapMonth(month + n);
      assert Offset(month, t) == n;
      NextMonthsActive(active, month, n - 1) + (if t as nat in active then [t as nat] else [])
  }

  /** No active month of the window is missed. */
  lemma {:induction false} NextMonthsComplete(active: seq<nat>, month: nat, n: nat, t: nat)
    requires 1 <= month <= 12 && n <= 6
    requires 1 <= t <= 12 && t in active && 1 <= Offset(month, t) <= n
    ensures t in NextMonthsActive(active, month, n)
  {
    if Offset(month, t) == n {
      assert WrapMonth(month + n) == t;
    } else {
      NextMonthsComplete(active, month, n - 1, t);
    }
  }

  predicate Distinct(s: seq<nat>) {
    forall i, j :: 0 <= i < j < |s| ==> s[i] != s[j]
  }

  /** [m for m in active if m not in selected], keeping the list order. */
  function Without(active: seq<nat>, selected: seq<nat>): (r: seq<nat>)
    ensures forall x :: x in r <==> x in active && x !in selected
    ensures |r| <= |active|
  {
    if active == [] then []
    else
      var rest := Without(active[1..], selected);
      assert forall x :: x in active <==> x == active[0] || x in active[1..];
      (if active[0] !in selected then [active[0]] else []) + rest
  }

  /** x comes before y in s: at some position x, and at a later one y. */
  ghost predicate Before(s: seq<nat>, x: nat, y: nat) {
    exists p, q :: 0 <= p < q < |s| && s[p] == x && s[q] == y
  }

  /** The elements of r occur in s in the same order. */
  ghost predicate InOrder(s: seq<nat>, r: seq<nat>) {
    forall i, j :: 0 <= i < j < |r| ==> Before(s, r[i], r[j])
  }

  /** The remaining months keep the list order of `active`: each one comes before every
      later one in `active` as well. */
  lemma {:induction false} WithoutInOrder(active: seq<nat>, selected: seq<nat>)
    ensures InOrder(active, Without(active, selected))
  {
    if active != [] {
      var tail := active[1..];
      var rest := Without(tail, selected);
      WithoutInOrder(tail, selected);
      var head := if active[0] !in selected then [active[0]] else [];
      var r := Without(active, selected);
      assert r == head + rest;
      forall i, j | 0 <= i < j < |r| ensures Before(active, r[i], r[j]) {
        var d := |head|;
        assert |r| == d + |rest|;
        if i < d {
          assert r[j] == rest[j - d] && rest[j - d] in tail;
          var q :| 0 <= q < |tail| && tail[q] == r[j];
          assert active[0] == r[i] && active[q + 1] == r[j];
        } else {
          assert r[i] == rest[i - d] && r[j] == rest[j - d];
          assert 0 <= i - d < j - d < |rest|;
          assert InOrder(tail, rest);
          assert Before(tail, rest[i - d], rest[j - d]);
          var p, q :| 0 <= p < q < |tail| && tail[p] == rest[i - d] && tail[q] == rest[j - d];
          assert active[p + 1] == r[i] && active[q + 1] == r[j];
        }
      }
    }
  }

  /** The entries of `active` that `selected` holds, in list order. */
  function Among(active: seq<nat>, selected: seq<nat>): (r: seq<nat>)
    ensures forall x :: x in r <==> x in active && x in selected
    ensures |Without(active, selected)| + |r| == |active|
  {
    if active == [] then []
    else
      var rest := Among(active[1..], selected);
      assert forall x :: x in active <==> x == active[0] || x in active[1..];
      (if active[0] in selected then [active[0]] else []) + rest
  }

  lemma {:induction false} FilterDistinct(active: seq<nat>, selected: seq<nat>)
    requires Distinct(active)
    ensures Distinct(Without(active, selected)) && Distinct(Among(active, selected))
  {
    if active != [] {
      var tail := active[1..];
      assert Distinct(tail) by {
        forall i, j | 0 <= i < j < |tail| ensures tail[i] != tail[j] {
          assert tail[i] == active[i + 1] && tail[j] == active[j + 1];
        }
      }
      FilterDistinct(tail, selected);
      assert active[0] !in tail by {
        forall k | 0 <= k < |tail| ensures tail[k] != active[0] { assert tail[k] == active[k + 1]; }
      }
      var w := Without(tail, selected);
      var a := Among(tail, selected);
      assert Without(active, selected) == (if active[0] !in selected then [active[0]] else []) + w;
      assert Among(active, selected) == (if active[0] in selected then [active[0]] else []) + a;
      assert active[0] !in w && active[0] !in a;
    }
  }

  function ToSet(s: seq<nat>): set<nat> { set x | x in s }

  /** A list without repetitions has as many elements as its set. */
  lemma {:induction false} DistinctCard(s: seq<nat>)
    requires Distinct(s)
    ensures |ToSet(s)| == |s|
  {
    if s != [] {
      var t := s[..|s| - 1];
      var last := s[|s| - 1];
      assert s == t + [last];
      assert Distinct(t) by {
        forall i, j | 0 <= i < j < |t| ensures t[i] != t[j] { assert t[i] == s[i] && t[j] == s[j]; }
      }
      DistinctCard(t);
      assert ToSet(s) == ToSet(t) + {last};
      assert last !in ToSet(t) by {
        forall k | 0 <= k < |t| ensures t[k] != last { assert t[k] == s[k]; }
      }
    }
  }

  lemma {:induction false} SetCard(s: seq<nat>)
    ensures |ToSet(s)| <= |s|
  {
    if s != [] {
      var t := s[..|s| - 1];
      assert s == t + [s[|s| - 1]];
      SetCard(t);
      assert ToSet(s) == ToSet(t) + {s[|s| - 1]};
    }
  }

  lemma {:induction false} SubsetCard(a: set<nat>, b: set<nat>)
    requires a <= b
    ensures |a| <= |b|
    decreases |a|
  {
    if a != {} {
      var x :| x in a;
      SubsetCard(a - {x}, b - {x});
    }
  }

  /** Removing a list of months from a list without repetitions drops at most that many. */
  lemma WithoutLength(active: seq<nat>, selected: seq<nat>)
    requires Distinct(active)
    ensures |Without(active, selected)| >= |active| - |selected|
  {
    var among := Among(active, selected);
    FilterDistinct(active, selected);
    DistinctCard(among);
    SubsetCard(ToSet(among), ToSet(selected));
    SetCard(selected);
  }

  /** The months whose contracts are listed: all active months when there are at most six;
      otherwise the active months among the next six calendar months, topped up in list
      order with the other active months. */
  function SelectMonths(active: seq<nat>, month: nat): (r: seq<nat>)
    requires 1 <= month <= 12
    ensures forall k :: 0 <= k < |r| ==> r[k] in active
    ensures |r| <= 6
  {
    if |active| > 6 then TopUp(active, NextMonthsActive(active, month, 6)) else active
  }

  /** A selection of fewer than six months extended with the first remaining months. */
  function TopUp(active: seq<nat>, selected: seq<nat>): (r: seq<nat>)
    requires |selected| <= 6
    ensures |r| <= 6
  {
    if |selected| < 6 then selected + Take(Without(active, selected), 6 - |selected|) else selected
  }

  /** r is six distinct months: those of `next`, then the first of the other months of
      `active` in list order. */
  predicate ToppedUp(r: seq<nat>, active: seq<nat>, next: seq<nat>)
    requires |next| <= 6
  {
    && |r| == 6 && Distinct(r)
    && |next| <= |r| && r[..|next|] == next
    && r[|next|..] == Take(Without(active, next), 6 - |next|)
  }

  /** Two lists without repetitions and without common elements concatenate to one. */
  lemma AppendDistinct(a: seq<nat>, b: seq<nat>)
    requires Distinct(a) && Distinct(b) && forall x :: x in b ==> x !in a
    ensures Distinct(a + b)
  {
    var r := a + b;
    forall j, k | 0 <= j < k < |r| ensures r[j] != r[k] {
      if k < |a| {
        assert r[j] == a[j] && r[k] == a[k];
      } else if j < |a| {
        assert r[j] == a[j] && r[k] == b[k - |a|];
        assert b[k - |a|] in b && a[j] in a;
      } else {
        assert r[j] == b[j - |a|] && r[k] == b[k - |a|];
      }
    }
  }

  /** With more than six active months exactly six different active months are chosen,
      starting with those of the next six calendar months. */
  lemma SelectMonthsShape(active: seq<nat>, month: nat)
    requires ValidMonths(active) && 1 <= month <= 12
    ensures |active| <= 6 ==> SelectMonths(active, month) == active
    ensures |active| > 6 ==> ToppedUp(SelectMonths(active, month), active, NextMonthsActive(active, month, 6))
  {
    if |active| > 6 {
      ValidMonthsDistinct(active);
      var next := NextMonthsActive(active, month, 6);
      NextMonthsDistinct(active, month, 6);
      TopUpShape(active, next);
      assert SelectMonths(active, month) == TopUp(active, next);
    }
  }

  lemma NextMonthsDistinct(active: seq<nat>, month: nat, n: nat)
    requires 1 <= month <= 12 && n <= 6
    ensures Distinct(NextMonthsActive(active, month, n))
  {
    var next := NextMonthsActive(active, month, n);
    forall i, j | 0 <= i < j < |next| ensures next[i] != next[j] {
      assert Offset(month, next[i]) < Offset(month, next[j]);
    }
  }

  lemma ValidMonthsDistinct(ms: seq<nat>)
    requires ValidMonths(ms)
    ensures Distinct(ms)
  {
    forall i, j | 0 <= i < j < |ms| ensures ms[i] != ms[j] {
      ValidMonthsAscending(ms, i, j);
    }
  }

  /** Topping a selection of at most six distinct months up from the other months of a
      list of more than six gives six distinct months. */
  lemma TopUpShape(active: seq<nat>, next: seq<nat>)
    requires Distinct(active) && Distinct(next) && |active| > 6 && |next| <= 6
    ensures ToppedUp(TopUp(active, next), active, next)
  {
    WithoutLength(active, next);
    FilterDistinct(active, next);
    if |next| < 6 {
      AppendDistinct(next, Take(Without(active, next), 6 - |next|));
    }
  }

  /** The year rule: a month not after the current one belongs to next year. */
  function PriorityYear(m: nat, year: nat, month: nat): nat {
    if m <= month then year + 1 else year
  }

  /** A dated code of the non-CFFEX branch: one year digit on CZCE, two elsewhere. */
  function PriorityCode(symbol: string, ex: Exchange, year: nat, month: nat, m: nat): string
    requires m < 100
  {
    var y := PriorityYear(m, year, month);
    if ex == CZCE then symbol + LastChars(NatToString(y), 1) + Pad2(m) + "." + ExchangeValue(ex)
    else symbol + LastChars(NatToString(y), 2) + Pad2(m) + "." + ExchangeValue(ex)
  }

  /** CZCE writes the last digit of the year, the others the last two (from year 10 on). */
  lemma PriorityCodeFormat(symbol: string, ex: Exchange, year: nat, month: nat, m: nat)
    requires 1 <= m <= 12 && year >= 10
    ensures var y := PriorityYear(m, year, month);
            && (y == year + 1 <==> m <= month)
            && (ex == CZCE ==>
                  PriorityCode(symbol, ex, year, month, m) == symbol + [Digit(y % 10)] + Pad2(m) + "." + ExchangeValue(ex))
            && (ex != CZCE ==>
                  PriorityCode(symbol, ex, year, month, m)
                    == symbol + [Digit(y / 10 % 10), Digit(y % 10)] + Pad2(m) + "." + ExchangeValue(ex))
  {
    var y := PriorityYear(m, year, month);
    if ex == CZCE {
      OneDigitSuffix(y);
      assert PriorityCode(symbol, ex, year, month, m) == symbol + LastChars(NatToString(y), 1) + Pad2(m) + "." + ExchangeValue(ex);
    } else {
      TwoDigitSuffix(y);
      assert PriorityCode(symbol, ex, year, month, m)
          == symbol + LastChars(NatToString(y), 2) + Pad2(m) + "." + ExchangeValue(ex);
    }
  }

  /** The dated codes of the non-CFFEX branch, one per selected month, in order. */
  function PriorityCodes(symbol: string, ex: Exchange, year: nat, month: nat, ms: seq<nat>): (r: seq<string>)
    requires forall k :: 0 <= k < |ms| ==> ms[k] < 100
    ensures |r| == |ms|
  {
    MapSeq(PriorityCoder(symbol, ex, year, month), ms)
  }

  /** PriorityCode for one product, exchange and current month, as a function of the month. */
  function PriorityCoder(symbol: string, ex: Exchange, year: nat, month: nat): nat --> string {
    (m: nat) requires m < 100 => PriorityCode(symbol, ex, year, month, m)
  }

  /** [f(x) for x in xs]. */
  function MapSeq<A, B>(f: A --> B, xs: seq<A>): (r: seq<B>)
    requires forall k :: 0 <= k < |xs| ==> f.requires(xs[k])
    ensures |r| == |xs|
  {
    if xs == [] then [] else MapSeq(f, xs[..|xs| - 1]) + [f(xs[|xs| - 1])]
  }

  lemma {:induction false} MapSeqAt<A, B>(f: A --> B, xs: seq<A>, k: nat)
    requires forall k :: 0 <= k < |xs| ==> f.requires(xs[k])
    requires k < |xs|
    ensures MapSeq(f, xs)[k] == f(xs[k])
  {
    var n := |xs| - 1;
    if k < n {
      MapSeqAt(f, xs[..n], k);
    }
  }

  /** One more element: the map of the first k + 1 elements. */
  lemma MapSeqPrefix<A, B>(f: A --> B, xs: seq<A>, k: nat)
    requires forall k :: 0 <= k < |xs| ==> f.requires(xs[k])
    requires k < |xs|
    ensures MapSeq(f, xs[..k + 1]) == MapSeq(f, xs[..k]) + [f(xs[k])]
  {
    assert xs[..k + 1][..k] == xs[..k];
  }

  lemma MapSeqWhole<A, B>(f: A --> B, xs: seq<A>)
    requires forall k :: 0 <= k < |xs| ==> f.requires(xs[k])
    ensures MapSeq(f, xs[..|xs|]) == MapSeq(f, xs)
  {
    assert xs[..|xs|] == xs;
  }

  /** [f"{symbol}{year_suffix}{month:02d}.{exchange}" for (year, month) in found_months]. */
  function CffexCodes(symbol: string, found: seq<YearMonth>): (r: seq<string>)
    requires forall k :: 0 <= k < |found| ==> 1 <= found[k].month <= 12
    ensures |r| == |found| && forall k :: 0 <= k < |found| ==> r[k] == ContractCode(symbol, found[k]) + "." + ExchangeValue(CFFEX)
  {
    seq(|found|, k requires 0 <= k < |found| => ContractCode(symbol, found[k]) + "." + ExchangeValue(CFFEX))
  }

  /** get_priority_contracts for a product that the table lists, on its exchange and
      with its active months. */
  function PriorityContractsFor(symbol: string, ex: Exchange, active: seq<nat>, year: nat, month: nat): seq<string>
    requires 1 <= month <= 12 && ValidMonths(active)
  {
    var tail := [ContinuousCode(symbol, ex), WeightedCode(symbol, ex)];
    if ex == CFFEX then
      CffexMonthsBound(active, year, month);
      CffexCodes(symbol, CffexMonths(active, year, month)) + tail
    else
      PriorityCodes(symbol, ex, year, month, SelectMonths(active, month)) + tail
  }

  /** CFFEX: at most two dated contracts (see CffexMonthsShape), then 9999 and 8888. */
  lemma PriorityCffex(symbol: string, active: seq<nat>, year: nat, month: nat)
    requires 1 <= month <= 12 && ValidMonths(active)
    ensures |PriorityContractsFor(symbol, CFFEX, active, year, month)| == |CffexMonths(active, year, month)| + 2
    ensures |CffexMonths(active, year, month)| <= 2
    ensures forall k :: 0 <= k < |CffexMonths(active, year, month)| ==>
              PriorityContractsFor(symbol, CFFEX, active, year, month)[k]
                == ContractCode(symbol, CffexMonths(active, year, month)[k]) + "." + ExchangeValue(CFFEX)
    ensures PriorityContractsFor(symbol, CFFEX, active, year, month)[|CffexMonths(active, year, month)|]
         == ContinuousCode(symbol, CFFEX)
    ensures PriorityContractsFor(symbol, CFFEX, active, year, month)[|CffexMonths(active, year, month)| + 1]
         == WeightedCode(symbol, CFFEX)
  {
    var dated := CffexMonths(active, year, month);
    CffexMonthsBound(active, year, month);
    var codes := CffexCodes(symbol, dated);
    assert PriorityContractsFor(symbol, CFFEX, active, year, month)
        == codes + [ContinuousCode(symbol, CFFEX), WeightedCode(symbol, CFFEX)];
  }

  /** Other exchanges: one code per selected month in that order, then 9999 and 8888. */
  lemma PriorityOther(symbol: string, ex: Exchange, active: seq<nat>, year: nat, month: nat)
    requires 1 <= month <= 12 && ex != CFFEX && ValidMonths(active)
    ensures |PriorityContractsFor(symbol, ex, active, year, month)| == |SelectMonths(active, month)| + 2
    ensures |SelectMonths(active, month)| <= 6
    ensures forall k :: 0 <= k < |SelectMonths(active, month)| ==>
              PriorityContractsFor(symbol, ex, active, year, month)[k]
                == PriorityCode(symbol, ex, year, month, SelectMonths(active, month)[k])
    ensures PriorityContractsFor(symbol, ex, active, year, month)[|SelectMonths(active, month)|]
         == ContinuousCode(symbol, ex)
    ensures PriorityContractsFor(symbol, ex, active, year, month)[|SelectMonths(active, month)| + 1]
         == WeightedCode(symbol, ex)
  {
    var ms := SelectMonths(active, month);
    var codes := PriorityCodes(symbol, ex, year, month, ms);
    assert PriorityContractsFor(symbol, ex, active, year, month)
        == codes + [ContinuousCode(symbol, ex), WeightedCode(symbol, ex)];
    PriorityCodesAt(symbol, ex, year, month, ms);
  }

  lemma PriorityCodesAt(symbol: string, ex: Exchange, year: nat, month: nat, ms: seq<nat>)
    requires forall k :: 0 <= k < |ms| ==> ms[k] < 100
    ensures forall k :: 0 <= k < |ms| ==>
              PriorityCodes(symbol, ex, year, month, ms)[k] == PriorityCode(symbol, ex, year, month, ms[k])
  {
    forall k | 0 <= k < |ms|
      ensures PriorityCodes(symbol, ex, year, month, ms)[k] == PriorityCode(symbol, ex, year, month, ms[k])
    {
      MapSeqAt(PriorityCoder(symbol, ex, year, month), ms, k);
    }
  }

  /** The truncation loop of get_priority_contracts. */
  method SelectPriorityMonths(active: seq<nat>, month: nat) returns (selected: seq<nat>)
    requires 1 <= month <= 12
    ensures selected == SelectMonths(active, month)
  {
    if |active| <= 6 {
      return active;
    }
    selected := [];
    var startMonth := month + 1;
    for i := 0 to 6
      invariant selected == NextMonthsActive(active, month, i)
    {
      var targetMonth := startMonth + i;
      if targetMonth > 12 {
        targetMonth := targetMonth - 12;
      }
      assert NextMonthsActive(active, month, i + 1)
          == NextMonthsActive(active, month, i) + (if targetMonth in active then [targetMonth] else []);
      if targetMonth in active {
        selected := selected + [targetMonth];
      }
    }
    if |selected| < 6 {
      var remainingMonths := Without(active, selected);
      var needed := 6 - |selected|;
      selected := selected + Take(remainingMonths, needed);
    }
  }

  /** The code-generation loop of the non-CFFEX branch. */
  method PriorityMonthCodes(symbol: string, ex: Exchange, year: nat, month: nat, ms: seq<nat>)
    returns (contracts: seq<string>)
    requires forall k :: 0 <= k < |ms| ==> ms[k] < 100
    ensures contracts == PriorityCodes(symbol, ex, year, month, ms)
  {
    contracts := [];
    var exchangeSuffix := ExchangeValue(ex);
    ghost var code := PriorityCoder(symbol, ex, year, month);
    for k := 0 to |ms|
      invariant contracts == MapSeq(code, ms[..k])
    {
      MapSeqPrefix(code, ms, k);
      var contract := PriorityMonthCode(symbol, ex, exchangeSuffix, year, month, ms[k]);
      contracts := contracts + [contract];
    }
    MapSeqWhole(code, ms);
  }

  /** One pass of that loop: the year rule, the year digits and the padded month. */
  method PriorityMonthCode(symbol: string, ex: Exchange, exchangeSuffix: string, year: nat, month: nat, m: nat)
    returns (contract: string)
    requires exchangeSuffix == ExchangeValue(ex) && m < 100
    ensures contract == PriorityCode(symbol, ex, year, month, m)
  {
    var y;
    if m <= month {
      y := year + 1;
    } else {
      y := year;
    }
    var yearSuffix := LastChars(NatToString(y), 2);
    var monthStr := Pad2(m);
    if exchangeSuffix == "CZCE" {
      var czceYear := LastChars(NatToString(y), 1);
      contract := symbol + czceYear + monthStr + "." + exchangeSuffix;
    } else {
      contract := symbol + yearSuffix + monthStr + "." + exchangeSuffix;
    }
  }

  /** The list get_priority_contracts returns, [] for a product the table does not list. */
  function PriorityContracts(symbol: string, year: nat, month: nat): seq<string>
    requires 1 <= month <= 12
  {
    match GetFuturesInfo(symbol)
    case None => []
    case Some(info) => PriorityContractsFor(symbol, info.exchange, info.ActiveMonths(), year, month)
  }

  /** get_priority_contracts: unknown products give [], CFFEX keeps its two next contracts,
      the others one per selected month; both end with the 9999 and 8888 contracts. */
  method GetPriorityContracts(symbol: string, year: nat, month: nat) returns (contracts: seq<string>)
    requires 1 <= month <= 12
    ensures symbol !in FuturesInfoTable ==> contracts == []
    ensures symbol in FuturesInfoTable ==>
              contracts == PriorityContractsFor(symbol, FuturesInfoTable[symbol].exchange,
                                                FuturesInfoTable[symbol].ActiveMonths(), year, month)
    ensures contracts == PriorityContracts(symbol, year, month)
  {
    var info := GetFuturesInfo(symbol);
    if info.None? {
      return [];
    }
    contracts := PriorityForInfo(symbol, info.value.exchange, info.value.ActiveMonths(), year, month);
  }

  method PriorityForInfo(symbol: string, ex: Exchange, active: seq<nat>, year: nat, month: nat)
    returns (contracts: seq<string>)
    requires 1 <= month <= 12 && ValidMonths(active)
    ensures contracts == PriorityContractsFor(symbol, ex, active, year, month)
  {
    var exchangeSuffix := ExchangeValue(ex);
    var continuousContract := symbol + "9999." + exchangeSuffix;
    var weightedContract := symbol + "8888." + exchangeSuffix;
    if exchangeSuffix == "CFFEX" {
      var foundMonths := CffexScan(active, year, month);
      CffexMonthsBound(active, year, month);
      contracts := CffexMonthCodes(symbol, foundMonths);
      contracts := contracts + [continuousContract, weightedContract];
      return;
    }
    var selected := SelectPriorityMonths(active, month);
    contracts := PriorityMonthCodes(symbol, ex, year, month, selected);
    contracts := contracts + [continuousContract, weightedContract];
  }

  lemma CffexCodesAppend(symbol: string, found: seq<YearMonth>, ym: YearMonth)
    requires forall k :: 0 <= k < |found| ==> 1 <= found[k].month <= 12
    requires 1 <= ym.month <= 12
    ensures CffexCodes(symbol, found + [ym]) == CffexCodes(symbol, found) + [ContractCode(symbol, ym) + "." + ExchangeValue(CFFEX)]
  {
    var a := CffexCodes(symbol, found + [ym]);
    var b := CffexCodes(symbol, found) + [ContractCode(symbol, ym) + "." + ExchangeValue(CFFEX)];
    forall k | 0 <= k < |a| ensures a[k] == b[k] {
      if k < |found| { assert (found + [ym])[k] == found[k]; }
    }
  }

  /** The code loop of the CFFEX branch, over the months it found. */
  method CffexMonthCodes(symbol: string, foundMonths: seq<YearMonth>) returns (contracts: seq<string>)
    requires forall k :: 0 <= k < |foundMonths| ==> 1 <= foundMonths[k].month <= 12
    ensures contracts == CffexCodes(symbol, foundMonths)
  {
    var exchangeSuffix := ExchangeValue(CFFEX);
    contracts := [];
    for k := 0 to |foundMonths|
      invariant contracts == CffexCodes(symbol, foundMonths[..k])
    {
      var ym := foundMonths[k];
      assert foundMonths[..k + 1] == foundMonths[..k] + [ym];
      CffexCodesAppend(symbol, foundMonths[..k], ym);
      contracts := contracts + [ContractCode(symbol, ym) + "." + exchangeSuffix];
    }
    assert foundMonths[..|foundMonths|] == foundMonths;
  }

  // ------------------------------------------------------------ examples

  lemma YearTexts()
    ensures NatToString(2025) == "2025" && NatToString(2026) == "2026"
  {
    assert NatToString(2) == "2";
    assert NatToString(20) == "20";
    assert NatToString(202) == "202";
  }

  /** The docstring's example codes: rebar for October 2025, January 2026 and May 2026. */
  lemma CodeExamples()
    ensures ContractCode("rb", YearMonth(2025, 10)) == "rb2510"
    ensures ContractCode("rb", YearMonth(2026, 1)) == "rb2601"
    ensures ContractCode("rb", YearMonth(2026, 5)) == "rb2605"
  {
    YearTexts();
    assert LastChars("2025", 2) == "25" && LastChars("2026", 2) == "26";
    assert NatToString(1) == "1" && NatToString(10) == "10";
    assert Pad2(10) == "10" && Pad2(1) == "01" && Pad2(5) == "05";
  }

  /** Rebar trades in January, May and October: from October 2025 the scan finds
      2025-10, 2026-01 and 2026-05. */
  lemma RebarMonths()
    ensures ContractMonths([1, 5, 10], 2025, 10) == [YearMonth(2025, 10), YearMonth(2026, 1), YearMonth(2026, 5)]
  {
    var active: seq<nat> := [1, 5, 10];
    assert MonthAt(2025, 10, 3) == YearMonth(2026, 1);
    assert MonthAt(2025, 10, 7) == YearMonth(2026, 5);
    assert ActiveWithin(active, 2025, 10, 3) == [YearMonth(2025, 10)];
    assert ActiveWithin(active, 2025, 10, 4) == [YearMonth(2025, 10), YearMonth(2026, 1)];
    assert ActiveWithin(active, 2025, 10, 7) == [YearMonth(2025, 10), YearMonth(2026, 1)];
    assert ActiveWithin(active, 2025, 10, 8) == [YearMonth(2025, 10), YearMonth(2026, 1), YearMonth(2026, 5)];
    ContractMonthsFound(active, 2025, 10, 8);
  }

  /** Copper trades every month: from October the next six calendar months are chosen. */
  lemma CopperSelection(active: seq<nat>)
    requires active == PlanMonths(AllMonths)
    ensures SelectMonths(active, 10) == [11, 12, 1, 2, 3, 4]
  {
    assert |active| == 12;
    assert NextMonthsActive(active, 10, 1) == [11];
    assert NextMonthsActive(active, 10, 2) == [11, 12];
    assert NextMonthsActive(active, 10, 3) == [11, 12, 1];
    assert NextMonthsActive(active, 10, 4) == [11, 12, 1, 2];
    assert NextMonthsActive(active, 10, 5) == [11, 12, 1, 2, 3];
    assert NextMonthsActive(active, 10, 6) == [11, 12, 1, 2, 3, 4];
  }

  /** The CZCE comment's example: methanol for September 2025, seen from March, is MA509. */
  lemma MethanolCode()
    ensures PriorityCode("MA", CZCE, 2025, 3, 9) == "MA509.CZCE"
    ensures PriorityCode("MA", CZCE, 2025, 9, 9) == "MA609.CZCE"
  {
    YearTexts();
    assert LastChars("2025", 1) == "5" && LastChars("2026", 1) == "6";
    assert Pad2(9) == "09";
  }
}
