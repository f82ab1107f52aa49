/**
 * The sensor platform: the coordinator that turns one batched quote reply into
 * a price per tracked symbol, the per-coin value sensors, the total portfolio
 * sensor, and the setup that creates them.
 *
 * Prices and amounts are exact `real`s (the source's `Decimal`); the one place
 * where the source leaves exact arithmetic is the final `round(float(x), 2)`,
 * modelled by `Round2`.
 */
module Sensor {
  import opened Wrappers
  import opened Json
  import opened Text
  import opened Config

  // ---------------------------------------------------------------------------
  // Rounding to cents
  // ---------------------------------------------------------------------------

  /** `r` is a whole number of cents. */
  predicate IsCents(r: real) {
    (r * 100.0).Floor as real == r * 100.0
  }

  /**
   * `round(x, 2)`: the nearest whole number of cents, ties to the even cent.
   * The binary floating-point conversion in front of it is not modelled.
   */
  function Round2(x: real): (r: real)
    ensures IsCents(r)
    ensures -0.005 <= r - x <= 0.005
    ensures IsCents(x) ==> r == x
  {
    var n := (x * 100.0).Floor;
    var frac := x * 100.0 - n as real;
    var k := if frac > 0.5 then n + 1
             else if frac < 0.5 then n
             else if n % 2 == 0 then n else n + 1;
    assert (k as real / 100.0) * 100.0 == k as real;
    k as real / 100.0
  }

  /**
   * Rounding once after summing is not the same as summing rounded terms:
   * two holdings worth 0.004 each total 0.01, while each alone rounds to 0.
   */
  lemma RoundingOnceDiffersFromRoundingEachTerm()
    ensures Round2(0.004 + 0.004) == 0.01
    ensures Round2(0.004) + Round2(0.004) == 0.0
  {
    assert (0.008 * 100.0).Floor == 0;
    assert (0.004 * 100.0).Floor == 0;
  }

  // ---------------------------------------------------------------------------
  // From a quote reply to a price per symbol
  // ---------------------------------------------------------------------------

  /** Prices by symbol; `None` is a price the API sent as JSON null. */
  type Quotes = map<string, Option<real>>

  /** Why a refresh raised `UpdateFailed`. */
  datatype FailureCause =
    | BadStatus(status: int)                         // response status other than 200
    | RequestFailed                                  // the request or body decoding raised
    | MissingQuote(symbol: string, error: PyError)   // subscripting the body raised
    | NotAPrice(symbol: string)                      // the price leaf is a JSON object

  datatype UpdateFailed = UpdateFailed(cause: FailureCause)

  /** `data["data"][symbol]["quote"][currency]["price"]` */
  function QuotePrice(body: Json, symbol: string, currency: string): (r: Result<Option<real>, FailureCause>)
    ensures r == Success(None) <==> Path(body, ["data", symbol, "quote", currency, "price"]) == Success(JNull)
    ensures forall p :: r == Success(Some(p)) <==> Path(body, ["data", symbol, "quote", currency, "price"]) == Success(JNumber(p))
  {
    match Path(body, ["data", symbol, "quote", currency, "price"])
    case Failure(e) => Failure(MissingQuote(symbol, e))
    case Success(JNumber(p)) => Success(Some(p))
    case Success(JNull) => Success(None)
    case Success(JObject(_)) => Failure(NotAPrice(symbol))
  }

  /**
   * The dict comprehension over the tracked symbols: it fails with the error
   * of the first symbol (in list order) whose price cannot be read, and
   * otherwise maps exactly the tracked symbols to their prices.
   */
  function QuoteMap(symbols: seq<string>, body: Json, currency: string): (r: Result<Quotes, FailureCause>)
    ensures r.Success? <==> forall i :: 0 <= i < |symbols| ==> QuotePrice(body, symbols[i], currency).Success?
    ensures r.Success? ==> r.value.Keys == set s | s in symbols
    ensures r.Success? ==> forall s :: s in symbols ==> r.value[s] == QuotePrice(body, s, currency).value
    ensures r.Failure? ==> exists i :: 0 <= i < |symbols| && QuotePrice(body, symbols[i], currency) == Failure(r.error)
                                   && forall j :: 0 <= j < i ==> QuotePrice(body, symbols[j], currency).Success?
    decreases |symbols|
  {
    if symbols == [] then Success(map[])
    else
      match QuotePrice(body, symbols[0], currency)
      case Failure(e) => Failure(e)
      case Success(p) =>
        var rest := QuoteMap(symbols[1..], body, currency);
        if rest.Failure? then
          ghost var i :| 0 <= i < |symbols[1..]| && QuotePrice(body, symbols[1..][i], currency) == Failure(rest.error)
                         && forall j :: 0 <= j < i ==> QuotePrice(body, symbols[1..][j], currency).Success?;
          assert QuotePrice(body, symbols[i + 1], currency) == Failure(rest.error);
          rest
        else
          assert forall s :: s in symbols ==> s == symbols[0] || s in symbols[1..];
          Success(rest.value[symbols[0] := p])
  }

  /**
   * `_async_update_data`: a non-200 status, a request that raised, or any
   * tracked symbol whose price cannot be read make the refresh fail;
   * otherwise the result maps exactly the tracked symbols to their prices.
   */
  function FetchQuotes(symbols: seq<string>, currency: string, reply: HttpReply): (r: Result<Quotes, UpdateFailed>)
    ensures reply.Raised? ==> r == Failure(UpdateFailed(RequestFailed))
    ensures reply.Reply? && reply.status != 200 ==> r == Failure(UpdateFailed(BadStatus(reply.status)))
    ensures r.Success? <==> reply.Reply? && reply.status == 200 && QuoteMap(symbols, reply.body, currency).Success?
    ensures r.Success? ==> r.value.Keys == set s | s in symbols
    ensures r.Success? ==> forall s :: s in symbols ==> r.value[s] == QuotePrice(reply.body, s, currency).value
  {
    match reply
    case Raised => Failure(UpdateFailed(RequestFailed))
    case Reply(status, body) =>
      if status != 200 then Failure(UpdateFailed(BadStatus(status)))
      else
        match QuoteMap(symbols, body, currency)
        case Failure(e) => Failure(UpdateFailed(e))
        case Success(m) => Success(m)
  }

  /** The query string of the batched request. */
  datatype QueryParams = QueryParams(symbol: string, convert: string)

  // ---------------------------------------------------------------------------
  // The coordinator
  // ---------------------------------------------------------------------------

  /**
   * `CoinMarketCapDataUpdateCoordinator` together with the part of the host's
   * `DataUpdateCoordinator` the sensors observe: the last good `data` and
   * the `last_update_success` flag.
   */
  class Coordinator {
    const apiKey: Option<string>
    const cryptocurrencies: seq<string>
    const currency: string
    const updateInterval: int   // seconds
    var data: Quotes
    var lastUpdateSuccess: bool

    constructor (apiKey: Option<string>, cryptocurrencies: seq<string>, currency: string, updateInterval: int)
      ensures this.apiKey == apiKey && this.cryptocurrencies == cryptocurrencies
      ensures this.currency == currency && this.updateInterval == updateInterval
      ensures data == map[] && lastUpdateSuccess
    {
      this.apiKey := apiKey;
      this.cryptocurrencies := cryptocurrencies;
      this.currency := currency;
      this.updateInterval := updateInterval;
      data := map[];
      lastUpdateSuccess := true;
    }

    /** The batched request asks for every tracked symbol, comma-joined, priced in the display currency. */
    function Params(): (r: QueryParams)
      ensures r.convert == currency
      ensures |cryptocurrencies| >= 1 && (forall i :: 0 <= i < |cryptocurrencies| ==> NoComma(cryptocurrencies[i]))
              ==> Split(r.symbol) == cryptocurrencies
    {
      assert |cryptocurrencies| >= 1 && (forall i :: 0 <= i < |cryptocurrencies| ==> NoComma(cryptocurrencies[i]))
             ==> Split(Join(cryptocurrencies)) == cryptocurrencies by {
        if |cryptocurrencies| >= 1 && (forall i :: 0 <= i < |cryptocurrencies| ==> NoComma(cryptocurrencies[i])) {
          SplitJoin(cryptocurrencies);
        }
      }
      QueryParams(Join(cryptocurrencies), currency)
    }

    /**
     * One refresh: on success the snapshot is replaced as a whole and the
     * coordinator is marked successful; on failure the last snapshot is kept
     * and the coordinator is marked unsuccessful.
     */
    method Refresh(reply: HttpReply) returns (r: Result<Quotes, UpdateFailed>)
      modifies this
      ensures r == FetchQuotes(cryptocurrencies, currency, reply)
      ensures r.Success? ==> data == r.value && lastUpdateSuccess
      ensures r.Failure? ==> data == old(data) && !lastUpdateSuccess
    {
      r := FetchQuotes(cryptocurrencies, currency, reply);
      if r.Success? {
        data := r.value;
        lastUpdateSuccess := true;
      } else {
        lastUpdateSuccess := false;
      }
    }
  }

  // ---------------------------------------------------------------------------
  // Valuation
  // ---------------------------------------------------------------------------

  /** `data.get(symbol)`: None both for a symbol without a quote and for a null price. */
  function PriceOf(data: Quotes, symbol: string): (r: Option<real>)
    ensures r.Some? <==> symbol in data && data[symbol].Some?
    ensures r.Some? ==> r == data[symbol]
  {
    if symbol in data then data[symbol] else None
  }

  predicate HasKey(h: Holdings, symbol: string) {
    exists i :: 0 <= i < |h| && h[i].0 == symbol
  }

  /** `coin_amounts.get(symbol, 0)` */
  function AmountOf(h: Holdings, symbol: string): (r: real)
    ensures !HasKey(h, symbol) ==> r == 0.0
    ensures DistinctKeys(h) ==> forall i :: 0 <= i < |h| && h[i].0 == symbol ==> r == h[i].1
  {
    if h == [] then 0.0
    else if h[0].0 == symbol then h[0].1
    else
      assert forall i :: 1 <= i < |h| ==> h[i] == h[1..][i - 1];
      AmountOf(h[1..], symbol)
  }

  /** The exact worth `price * amount` of a holding; nothing when there is no price. */
  function Worth(data: Quotes, symbol: string, amount: real): real {
    match PriceOf(data, symbol)
    case Some(p) => p * amount
    case None => 0.0
  }

  /** The exact sum over the holdings of their worth, in iteration order. */
  function ExactTotal(data: Quotes, h: Holdings): (r: real)
    ensures (forall i :: 0 <= i < |h| ==> PriceOf(data, h[i].0).None?) ==> r == 0.0
  {
    if h == [] then 0.0
    else
      assert forall i :: 0 <= i < |h| - 1 ==> h[..|h| - 1][i] == h[i];
      ExactTotal(data, h[..|h| - 1]) + Worth(data, h[|h| - 1].0, h[|h| - 1].1)
  }

  /**
   * A per-coin reading: unknown when the symbol has no price, otherwise the
   * exact `price * amount` rounded once to cents.
   */
  function CoinState(data: Quotes, symbol: string, amount: real): (r: Option<real>)
    ensures r.None? <==> PriceOf(data, symbol).None?
    ensures r.Some? ==> r.value == Round2(Worth(data, symbol, amount)) && IsCents(r.value)
  {
    match PriceOf(data, symbol)
    case Some(p) =>
      assert Worth(data, symbol, amount) == p * amount;
      Some(Round2(p * amount))
    case None => None
  }

  /** A coin with no configured holding reads zero whenever it has a price, never its raw price. */
  lemma CoinWithoutHoldingReadsZero(data: Quotes, h: Holdings, symbol: string)
    requires !HasKey(h, symbol)
    ensures CoinState(data, symbol, AmountOf(h, symbol)) == if PriceOf(data, symbol).Some? then Some(0.0) else None
  {
  }

  /** What the per-coin sensors of `symbols` are worth together, exactly, before any rounding. */
  function CoinWorthSum(data: Quotes, symbols: seq<string>, h: Holdings): real {
    if symbols == [] then 0.0
    else
      var last := symbols[|symbols| - 1];
      CoinWorthSum(data, symbols[..|symbols| - 1], h) + Worth(data, last, AmountOf(h, last))
  }

  lemma {:induction false} AmountOfAppend(h: Holdings, k: string, a: real, symbol: string)
    requires !HasKey(h, k)
    ensures AmountOf(h + [(k, a)], symbol) == if symbol == k then a else AmountOf(h, symbol)
    decreases |h|
  {
    if h != [] {
      assert (h + [(k, a)])[1..] == h[1..] + [(k, a)];
      assert h[0].0 != k;
      if h[0].0 != symbol {
        forall i | 0 <= i < |h[1..]|
          ensures h[1..][i].0 != k
        {
          assert h[1..][i] == h[i + 1];
        }
        AmountOfAppend(h[1..], k, a, symbol);
      }
    }
  }

  lemma {:induction false} CoinWorthSumWithoutHoldings(data: Quotes, symbols: seq<string>)
    ensures CoinWorthSum(data, symbols, []) == 0.0
    decreases |symbols|
  {
    if symbols != [] {
      CoinWorthSumWithoutHoldings(data, symbols[..|symbols| - 1]);
    }
  }

  lemma {:induction false} CoinWorthSumAppend(data: Quotes, symbols: seq<string>, h: Holdings, k: string, a: real)
    requires Distinct(symbols)
    requires !HasKey(h, k)
    ensures CoinWorthSum(data, symbols, h + [(k, a)])
            == CoinWorthSum(data, symbols, h) + (if k in symbols then Worth(data, k, a) else 0.0)
    decreases |symbols|
  {
    if symbols != [] {
      var init, last := symbols[..|symbols| - 1], symbols[|symbols| - 1];
      assert symbols == init + [last];
      CoinWorthSumAppend(data, init, h, k, a);
      AmountOfAppend(h, k, a, last);
      if last == k {
        assert k !in init;
      }
    }
  }

  /**
   * The total sensor's exact sum is the sum of what the per-coin sensors are
   * worth, when the snapshot only prices tracked symbols (as after any
   * successful refresh): holdings of untracked symbols add nothing, and
   * tracked symbols without a holding are worth zero.
   */
  lemma {:induction false} TotalEqualsSumOfCoinWorths(data: Quotes, symbols: seq<string>, h: Holdings)
    requires Distinct(symbols)
    requires DistinctKeys(h)
    requires forall k :: k in data ==> k in symbols
    ensures ExactTotal(data, h) == CoinWorthSum(data, symbols, h)
    decreases |h|
  {
    if h == [] {
      CoinWorthSumWithoutHoldings(data, symbols);
    } else {
      var init, k, a := h[..|h| - 1], h[|h| - 1].0, h[|h| - 1].1;
      assert h == init + [(k, a)];
      assert !HasKey(init, k);
      TotalEqualsSumOfCoinWorths(data, symbols, init);
      CoinWorthSumAppend(data, symbols, init, k, a);
    }
  }

  /**
   * The worked example: BTC and ETH tracked, half a BTC held, BTC at 50000 and
   * ETH at 3000. BTC reads 25000, ETH (no holding) reads 0, the total 25000.
   */
  lemma PortfolioExample()
    ensures var data := map["BTC" := Some(50000.0), "ETH" := Some(3000.0)];
            var h := [("BTC", 0.5)];
            && CoinState(data, "BTC", AmountOf(h, "BTC")) == Some(25000.0)
            && CoinState(data, "ETH", AmountOf(h, "ETH")) == Some(0.0)
            && Round2(ExactTotal(data, h)) == 25000.0
  {
    var data := map["BTC" := Some(50000.0), "ETH" := Some(3000.0)];
    var h := [("BTC", 0.5)];
    assert IsCents(25000.0) by { assert (25000.0 * 100.0).Floor == 2500000; }
    assert IsCents(0.0) by { assert (0.0 * 100.0).Floor == 0; }
    assert h[..0] == [];
    assert ExactTotal(data, h) == 25000.0;
  }

  // ---------------------------------------------------------------------------
  // The sensors
  // ---------------------------------------------------------------------------

  /**
   * `CoinMarketCapSensor` and `CoinMarketCapTotalValueSensor`. Neither holds a
   * price of its own: every reading goes through the shared coordinator.
   */
  datatype SensorEntity =
    | CoinSensor(coordinator: Coordinator, cryptocurrency: string, amount: real)
    | TotalValueSensor(coordinator: Coordinator, coinAmounts: Holdings)

  /** What `extra_state_attributes` reports. */
  datatype Attributes =
    | CoinAttributes(cryptocurrency: string, amount: real, price: Option<real>)
    | TotalAttributes(cryptocurrencies: seq<string>)

  function CoinUniqueId(symbol: string, currency: string): string {
    DOMAIN + "_" + symbol + "_value_" + currency
  }

  function TotalUniqueId(currency: string): string {
    DOMAIN + "_" + "total_portfolio" + "_value_" + currency
  }

  /** For a fixed display currency, distinct symbols get distinct identifiers. */
  lemma CoinUniqueIdInjective(a: string, b: string, currency: string)
    requires CoinUniqueId(a, currency) == CoinUniqueId(b, currency)
    ensures a == b
  {
    var prefix := DOMAIN + "_";
    assert |a| == |b|;
    assert CoinUniqueId(a, currency)[|prefix|..|prefix| + |a|] == a;
    assert CoinUniqueId(b, currency)[|prefix|..|prefix| + |b|] == b;
  }

  /** No per-coin identifier is the total sensor's, unless the symbol is literally `total_portfolio`. */
  lemma CoinUniqueIdIsNotTotal(symbol: string, currency: string)
    requires symbol != "total_portfolio"
    ensures CoinUniqueId(symbol, currency) != TotalUniqueId(currency)
  {
    var prefix := DOMAIN + "_";
    if |symbol| == |"total_portfolio"| {
      assert CoinUniqueId(symbol, currency)[|prefix|..|prefix| + |symbol|] == symbol;
      assert TotalUniqueId(currency)[|prefix|..|prefix| + |symbol|] == "total_portfolio";
    }
  }

  /** `name`: the symbol followed by " Value" for a coin, a fixed title for the total. */
  function Name(s: SensorEntity): (r: string)
    ensures s.CoinSensor? ==> r == s.cryptocurrency + " Value"
    ensures s.TotalValueSensor? ==> r == "Total Portfolio Value"
  {
    match s
    case CoinSensor(_, symbol, _) => symbol + " Value"
    case TotalValueSensor(_, _) => "Total Portfolio Value"
  }

  /** `unique_id`, built from the symbol (or `total_portfolio`) and the coordinator's currency. */
  function UniqueId(s: SensorEntity): (r: string)
    ensures s.CoinSensor? ==> r == CoinUniqueId(s.cryptocurrency, s.coordinator.currency)
    ensures s.TotalValueSensor? ==> r == TotalUniqueId(s.coordinator.currency)
  {
    match s
    case CoinSensor(c, symbol, _) => CoinUniqueId(symbol, c.currency)
    case TotalValueSensor(c, _) => TotalUniqueId(c.currency)
  }

  /** Both kinds are available exactly when the coordinator's last refresh succeeded. */
  function Available(s: SensorEntity): (r: bool)
    reads s.coordinator
    ensures r == s.coordinator.lastUpdateSuccess
  {
    s.coordinator.lastUpdateSuccess
  }

  /** Both kinds report in the coordinator's display currency. */
  function UnitOfMeasurement(s: SensorEntity): (r: string)
    ensures r == s.coordinator.currency
  {
    s.coordinator.currency
  }

  /** `state` of either kind, read from the coordinator's current snapshot. */
  function State(s: SensorEntity): (r: Option<real>)
    reads s.coordinator
    ensures s.CoinSensor? ==> r == CoinState(s.coordinator.data, s.cryptocurrency, s.amount)
    ensures s.TotalValueSensor? ==> r == Some(Round2(ExactTotal(s.coordinator.data, s.coinAmounts)))
  {
    match s
    case CoinSensor(c, symbol, amount) => CoinState(c.data, symbol, amount)
    case TotalValueSensor(c, h) => Some(Round2(ExactTotal(c.data, h)))
  }

  function Keys(h: Holdings): (r: seq<string>)
    ensures |r| == |h| && forall i :: 0 <= i < |h| ==> r[i] == h[i].0
  {
    seq(|h|, i requires 0 <= i < |h| => h[i].0)
  }

  function ExtraStateAttributes(s: SensorEntity): (r: Attributes)
    reads s.coordinator
    ensures s.CoinSensor? ==> r == CoinAttributes(s.cryptocurrency, s.amount, PriceOf(s.coordinator.data, s.cryptocurrency))
    ensures s.TotalValueSensor? ==> r == TotalAttributes(Keys(s.coinAmounts))
  {
    match s
    case CoinSensor(c, symbol, amount) => CoinAttributes(symbol, amount, PriceOf(c.data, symbol))
    case TotalValueSensor(c, h) => TotalAttributes(Keys(h))
  }

  /**
   * The total sensor's `state`: the loop over the holdings that adds up the
   * exact worth of every holding with a price, and rounds once at the end.
   */
  method TotalValueState(s: SensorEntity) returns (r: real)
    requires s.TotalValueSensor?
    ensures r == Round2(ExactTotal(s.coordinator.data, s.coinAmounts))
    ensures Some(r) == State(s)
  {
    var h := s.coinAmounts;
    var total := 0.0;
    var i := 0;
    while i < |h|
      invariant 0 <= i <= |h|
      invariant total == ExactTotal(s.coordinator.data, h[..i])
    {
      var (symbol, amount) := h[i];
      var price := PriceOf(s.coordinator.data, symbol);
      if price.Some? {
        total := total + price.value * amount;
      }
      assert h[..i + 1][..i] == h[..i];
      i := i + 1;
    }
    assert h[..|h|] == h;
    r := Round2(total);
  }

  // ---------------------------------------------------------------------------
  // Setup
  // ---------------------------------------------------------------------------

  /** `entry.data.get(CONF_COIN_AMOUNT, {})` */
  function HoldingsOf(data: EntryData): (r: Holdings)
    ensures data.coinAmounts.None? ==> r == []
    ensures data.coinAmounts.Some? ==> r == data.coinAmounts.value
  {
    match data.coinAmounts
    case Some(h) => h
    case None => []
  }

  /**
   * The sensors setup adds: one per tracked symbol, in order, holding that
   * symbol's configured amount or zero, then the one total sensor.
   */
  function BuildSensors(c: Coordinator, symbols: seq<string>, h: Holdings): (r: seq<SensorEntity>)
    ensures |r| == |symbols| + 1
    ensures forall i :: 0 <= i < |symbols| ==> r[i] == CoinSensor(c, symbols[i], AmountOf(h, symbols[i]))
    ensures r[|symbols|] == TotalValueSensor(c, h)
  {
    seq(|symbols|, i requires 0 <= i < |symbols| => CoinSensor(c, symbols[i], AmountOf(h, symbols[i])))
      + [TotalValueSensor(c, h)]
  }

  datatype SetupError = ConfigEntryNotReady(cause: UpdateFailed)

  /**
   * `async_setup_entry` of the sensor platform: create the coordinator, run
   * its first refresh (whose failure aborts setup), then build the sensors.
   */
  method SetupEntry(data: EntryData, firstReply: HttpReply) returns (r: Result<seq<SensorEntity>, SetupError>)
    ensures r.Failure? <==> FetchQuotes(data.cryptocurrencies, data.currency, firstReply).Failure?
    ensures r.Success? ==> |r.value| == |data.cryptocurrencies| + 1
    ensures r.Success? ==>
              var c := r.value[|data.cryptocurrencies|].coordinator;
              && fresh(c)
              && c.cryptocurrencies == data.cryptocurrencies && c.currency == data.currency
              && c.updateInterval == data.scanInterval
              && c.data == FetchQuotes(data.cryptocurrencies, data.currency, firstReply).value
              && c.lastUpdateSuccess
              && r.value == BuildSensors(c, data.cryptocurrencies, HoldingsOf(data))
  {
    var c := new Coordinator(data.apiKey, data.cryptocurrencies, data.currency, data.scanInterval);
    var first := c.Refresh(firstReply);
    if first.Failure? {
      return Failure(ConfigEntryNotReady(first.error));
    }
    r := Success(BuildSensors(c, data.cryptocurrencies, HoldingsOf(data)));
  }

  /**
   * Setup never creates two sensors with one identifier, provided the tracked
   * symbols are distinct and upper-case (as the wizard leaves them).
   */
  lemma SetupUniqueIdsDistinct(c: Coordinator, symbols: seq<string>, h: Holdings)
    requires Distinct(symbols)
    requires forall i :: 0 <= i < |symbols| ==> IsUpper(symbols[i])
    ensures var r := BuildSensors(c, symbols, h);
            forall i, j :: 0 <= i < j < |r| ==> UniqueId(r[i]) != UniqueId(r[j])
  {
    var r := BuildSensors(c, symbols, h);
    forall i, j | 0 <= i < j < |r|
      ensures UniqueId(r[i]) != UniqueId(r[j])
    {
      if j < |symbols| {
        if UniqueId(r[i]) == UniqueId(r[j]) {
          CoinUniqueIdInjective(symbols[i], symbols[j], c.currency);
        }
      } else {
        assert !IsUpper("total_portfolio") by { assert "total_portfolio"[0] == 't'; }
        CoinUniqueIdIsNotTotal(symbols[i], c.currency);
      }
    }
  }
}
