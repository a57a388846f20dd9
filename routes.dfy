/**
 * The endpoint registry: the closed, two-level enumeration of REST endpoints
 * (`API` in src/binance/api.rs) and its total conversion to URL paths.
 */
module Routes {
  import opened Wrappers

  /** A route: a market namespace tag carrying one endpoint of that namespace. */
  datatype Api = Spot(spot: Spot) | Savings(sapi: Sapi) | Futures(futures: Futures)

  /** Spot market endpoints (23 variants). */
  datatype Spot =
      Ping | Time | ExchangeInfo | Depth | Trades | HistoricalTrades | AggTrades | Klines
    | AvgPrice | Ticker24hr | Price | BookTicker | Order | OrderTest | OpenOrders
    | AllOrders | Oco | OrderList | AllOrderList | OpenOrderList | Account | MyTrades
    | UserDataStream

  /** Savings / wallet endpoints (4 variants). */
  datatype Sapi =
      AllCoins | AssetDetail | DepositAddress | SpotFuturesTransfer

  /** USD-margined futures endpoints (39 variants). */
  datatype Futures =
      Ping | Time | ExchangeInfo | Depth | Trades | HistoricalTrades | AggTrades | Klines
    | ContinuousKlines | IndexPriceKlines | MarkPriceKlines | PremiumIndex | FundingRate
    | Ticker24hr | TickerPrice | BookTicker | AllForceOrders | AllOpenOrders | AllOrders
    | UserTrades | Order | PositionRisk | Balance | PositionSide | OpenInterest
    | OpenInterestHist | TopLongShortAccountRatio | TopLongShortPositionRatio
    | GlobalLongShortAccountRatio | TakerlongshortRatio | LvtKlines | IndexInfo
    | ChangeInitialLeverage | MarginType | PositionMargin | Account | OpenOrders
    | UserDataStream | Income

  // The versioned base paths under which the exchange hosts each namespace.
  const SpotBase: string := "/api/v3/"
  const SapiBase: string := "/sapi/v1/"
  const FapiV1Base: string := "/fapi/v1/"
  const FapiV2Base: string := "/fapi/v2/"
  const FuturesDataBase: string := "/futures/data/"

  /** The three bases the futures endpoints are spread over. */
  datatype FuturesBase = FapiV1 | FapiV2 | FuturesData

  function FuturesBasePath(b: FuturesBase): (p: string)
    ensures p == FapiV1Base || p == FapiV2Base || p == FuturesDataBase
  {
    match b
    case FapiV1 => FapiV1Base
    case FapiV2 => FapiV2Base
    case FuturesData => FuturesDataBase
  }

  /** Relative path of each spot endpoint below `SpotBase`. */
  function SpotEndpoint(r: Spot): string
  {
    match r
    case Ping => "ping"
    case Time => "time"
    case ExchangeInfo => "exchangeInfo"
    case Depth => "depth"
    case Trades => "trades"
    case HistoricalTrades => "historicalTrades"
    case AggTrades => "aggTrades"
    case Klines => "klines"
    case AvgPrice => "avgPrice"
    case Ticker24hr => "ticker/24hr"
    case Price => "ticker/price"
    case BookTicker => "ticker/bookTicker"
    case Order => "order"
    case OrderTest => "order/test"
    case OpenOrders => "openOrders"
    case AllOrders => "allOrders"
    case Oco => "order/oco"
    case OrderList => "orderList"
    case AllOrderList => "allOrderList"
    case OpenOrderList => "openOrderList"
    case Account => "account"
    case MyTrades => "myTrades"
    case UserDataStream => "userDataStream"
  }

  /** Relative path of each savings endpoint below `SapiBase`. */
  function SapiEndpoint(r: Sapi): string
  {
    match r
    case AllCoins => "capital/config/getall"
    case AssetDetail => "asset/assetDetail"
    case DepositAddress => "capital/deposit/address"
    case SpotFuturesTransfer => "futures/transfer"
  }

  /**
   * Base path and relative path of each futures endpoint: most live under
   * `/fapi/v1/`, the account, balance and position-risk endpoints under
   * `/fapi/v2/`, and the trading statistics under `/futures/data/`.
   */
  function FuturesEndpoint(r: Futures): (FuturesBase, string)
  {
    match r
    case Ping => (FapiV1, "ping")
    case Time => (FapiV1, "time")
    case ExchangeInfo => (FapiV1, "exchangeInfo")
    case Depth => (FapiV1, "depth")
    case Trades => (FapiV1, "trades")
    case HistoricalTrades => (FapiV1, "historicalTrades")
    case AggTrades => (FapiV1, "aggTrades")
    case Klines => (FapiV1, "klines")
    case ContinuousKlines => (FapiV1, "continuousKlines")
    case IndexPriceKlines => (FapiV1, "indexPriceKlines")
    case MarkPriceKlines => (FapiV1, "markPriceKlines")
    case PremiumIndex => (FapiV1, "premiumIndex")
    case FundingRate => (FapiV1, "fundingRate")
    case Ticker24hr => (FapiV1, "ticker/24hr")
    case TickerPrice => (FapiV1, "ticker/price")
    case BookTicker => (FapiV1, "ticker/bookTicker")
    case AllForceOrders => (FapiV1, "allForceOrders")
    case AllOpenOrders => (FapiV1, "allOpenOrders")
    case AllOrders => (FapiV1, "allOrders")
    case UserTrades => (FapiV1, "userTrades")
    case PositionSide => (FapiV1, "positionSide/dual")
    case Order => (FapiV1, "order")
    case PositionRisk => (FapiV2, "positionRisk")
    case Balance => (FapiV2, "balance")
    case OpenInterest => (FapiV1, "openInterest")
    case OpenInterestHist => (FuturesData, "openInterestHist")
    case TopLongShortAccountRatio => (FuturesData, "topLongShortAccountRatio")
    case TopLongShortPositionRatio => (FuturesData, "topLongShortPositionRatio")
    case GlobalLongShortAccountRatio => (FuturesData, "globalLongShortAccountRatio")
    case TakerlongshortRatio => (FuturesData, "takerlongshortRatio")
    case LvtKlines => (FapiV1, "lvtKlines")
    case IndexInfo => (FapiV1, "indexInfo")
    case ChangeInitialLeverage => (FapiV1, "leverage")
    case MarginType => (FapiV1, "marginType")
    case PositionMargin => (FapiV1, "positionMargin")
    case Account => (FapiV2, "account")
    case OpenOrders => (FapiV1, "openOrders")
    case UserDataStream => (FapiV1, "listenKey")
    case Income => (FapiV1, "income")
  }

  // Full paths: the base followed by the relative path. Each is the literal
  // of the corresponding arm of the conversion in the source.

  function SpotPath(r: Spot): (p: string)
    ensures SpotBase < p
  {
    SpotBase + SpotEndpoint(r)
  }

  function SapiPath(r: Sapi): (p: string)
    ensures SapiBase < p
  {
    SapiBase + SapiEndpoint(r)
  }

  function FuturesPath(r: Futures): (p: string)
    ensures FuturesBasePath(FuturesEndpoint(r).0) < p
  {
    var (base, rest) := FuturesEndpoint(r);
    FuturesBasePath(base) + rest
  }

  /**
   * `impl From<API> for String`: the total resolution of a route to its
   * literal URL path. There is no failure case; every resolved path is
   * non-empty and absolute, and carries its namespace's base path.
   */
  function Path(a: Api): (p: string)
    ensures |p| > 1 && p[0] == '/'
    ensures a.Spot? ==> SpotBase < p
    ensures a.Savings? ==> SapiBase < p
    ensures a.Futures? ==> FapiV1Base < p || FapiV2Base < p || FuturesDataBase < p
  {
    match a
    case Spot(r) => SpotPath(r)
    case Savings(r) => SapiPath(r)
    case Futures(r) => FuturesPath(r)
  }

  // Reverse lookup: from a path back to the route that resolves to it. It is
  // the registry read right to left: the base path is recognised by the
  // characters in which the five bases differ, and the rest of the path is
  // looked up by its first character and then compared with the endpoints
  // below that base that start with it.

  ghost function SpotByEndpoint(rest: string): Option<Spot>
  {
    if rest == [] then None
    else if rest[0] == 'p' then
      if rest == "ping" then Some(Spot.Ping)
      else None
    else if rest[0] == 't' then
      if rest == "time" then Some(Spot.Time)
      else if rest == "trades" then Some(Spot.Trades)
      else if rest == "ticker/24hr" then Some(Spot.Ticker24hr)
      else if rest == "ticker/price" then Some(Spot.Price)
      else if rest == "ticker/bookTicker" then Some(Spot.BookTicker)
      else None
    else if rest[0] == 'e' then
      if rest == "exchangeInfo" then Some(Spot.ExchangeInfo)
      else None
    else if rest[0] == 'd' then
      if rest == "depth" then Some(Spot.Depth)
      else None
    else if rest[0] == 'h' then
      if rest == "historicalTrades" then Some(Spot.HistoricalTrades)
      else None
    else if rest[0] == 'a' then
      if rest == "aggTrades" then Some(Spot.AggTrades)
      else if rest == "avgPrice" then Some(Spot.AvgPrice)
      else if rest == "allOrders" then Some(Spot.AllOrders)
      else if rest == "allOrderList" then Some(Spot.AllOrderList)
      else if rest == "account" then Some(Spot.Account)
      else None
    else if rest[0] == 'k' then
      if rest == "klines" then Some(Spot.Klines)
      else None
    else if rest[0] == 'o' then
      if rest == "order" then Some(Spot.Order)
      else if rest == "order/test" then Some(Spot.OrderTest)
      else if rest == "openOrders" then Some(Spot.OpenOrders)
      else if rest == "order/oco" then Some(Spot.Oco)
      else if rest == "orderList" then Some(Spot.OrderList)
      else if rest == "openOrderList" then Some(Spot.OpenOrderList)
      else None
    else if rest[0] == 'm' then
      if rest == "myTrades" then Some(Spot.MyTrades)
      else None
    else if rest[0] == 'u' then
      if rest == "userDataStream" then Some(Spot.UserDataStream)
      else None
    else None
  }

  ghost function SapiByEndpoint(rest: string): Option<Sapi>
  {
    if rest == [] then None
    else if rest[0] == 'c' then
      if rest == "capital/config/getall" then Some(Sapi.AllCoins)
      else if rest == "capital/deposit/address" then Some(Sapi.DepositAddress)
      else None
    else if rest[0] == 'a' then
      if rest == "asset/assetDetail" then Some(Sapi.AssetDetail)
      else None
    else if rest[0] == 'f' then
      if rest == "futures/transfer" then Some(Sapi.SpotFuturesTransfer)
      else None
    else None
  }

  ghost function FapiV1ByEndpoint(rest: string): Option<Futures>
  {
    if rest == [] then None
    else if rest[0] == 'p' then
      if rest == "ping" then Some(Futures.Ping)
      else if rest == "premiumIndex" then Some(Futures.PremiumIndex)
      else if rest == "positionSide/dual" then Some(Futures.PositionSide)
      else if rest == "positionMargin" then Some(Futures.PositionMargin)
      else None
    else if rest[0] == 't' then
      if rest == "time" then Some(Futures.Time)
      else if rest == "trades" then Some(Futures.Trades)
      else if rest == "ticker/24hr" then Some(Futures.Ticker24hr)
      else if rest == "ticker/price" then Some(Futures.TickerPrice)
      else if rest == "ticker/bookTicker" then Some(Futures.BookTicker)
      else None
    else if rest[0] == 'e' then
      if rest == "exchangeInfo" then Some(Futures.ExchangeInfo)
      else None
    else if rest[0] == 'd' then
      if rest == "depth" then Some(Futures.Depth)
      else None
    else if rest[0] == 'h' then
      if rest == "historicalTrades" then Some(Futures.HistoricalTrades)
      else None
    else if rest[0] == 'a' then
      if rest == "aggTrades" then Some(Futures.AggTrades)
      else if rest == "allForceOrders" then Some(Futures.AllForceOrders)
      else if rest == "allOpenOrders" then Some(Futures.AllOpenOrders)
      else if rest == "allOrders" then Some(Futures.AllOrders)
      else None
    else if rest[0] == 'k' then
      if rest == "klines" then Some(Futures.Klines)
      else None
    else if rest[0] == 'c' then
      if rest == "continuousKlines" then Some(Futures.ContinuousKlines)
      else None
    else if rest[0] == 'i' then
      if rest == "indexPriceKlines" then Some(Futures.IndexPriceKlines)
      else if rest == "indexInfo" then Some(Futures.IndexInfo)
      else if rest == "income" then Some(Futures.Income)
      else None
    else if rest[0] == 'm' then
      if rest == "markPriceKlines" then Some(Futures.MarkPriceKlines)
      else if rest == "marginType" then Some(Futures.MarginType)
      else None
    else if rest[0] == 'f' then
      if rest == "fundingRate" then Some(Futures.FundingRate)
      else None
    else if rest[0] == 'u' then
      if rest == "userTrades" then Some(Futures.UserTrades)
      else None
    else if rest[0] == 'o' then
      if rest == "order" then Some(Futures.Order)
      else if rest == "openInterest" then Some(Futures.OpenInterest)
      else if rest == "openOrders" then Some(Futures.OpenOrders)
      else None
    else if rest[0] == 'l' then
      if rest == "lvtKlines" then Some(Futures.LvtKlines)
      else if rest == "leverage" then Some(Futures.ChangeInitialLeverage)
      else if rest == "listenKey" then Some(Futures.UserDataStream)
      else None
    else None
  }

  ghost function FapiV2ByEndpoint(rest: string): Option<Futures>
  {
    if rest == [] then None
    else if rest[0] == 'p' then
      if rest == "positionRisk" then Some(Futures.PositionRisk)
      else None
    else if rest[0] == 'b' then
      if rest == "balance" then Some(Futures.Balance)
      else None
    else if rest[0] == 'a' then
      if rest == "account" then Some(Futures.Account)
      else None
    else None
  }

  ghost function FuturesDataByEndpoint(rest: string): Option<Futures>
  {
    if rest == [] then None
    else if rest[0] == 'o' then
      if rest == "openInterestHist" then Some(Futures.OpenInterestHist)
      else None
    else if rest[0] == 't' then
      if rest == "topLongShortAccountRatio" then Some(Futures.TopLongShortAccountRatio)
      else if rest == "topLongShortPositionRatio" then Some(Futures.TopLongShortPositionRatio)
      else if rest == "takerlongshortRatio" then Some(Futures.TakerlongshortRatio)
      else None
    else if rest[0] == 'g' then
      if rest == "globalLongShortAccountRatio" then Some(Futures.GlobalLongShortAccountRatio)
      else None
    else None
  }

  /** The route a path resolves from, if any. */
  ghost function RouteOf(path: string): (r: Option<Api>)
  {
    if |path| < 8 then None
    else if path[1] == 'a' && SpotBase <= path then
      match SpotByEndpoint(path[|SpotBase|..])
      case Some(r) => Some(Api.Spot(r))
      case None => None
    else if path[1] == 's' && SapiBase <= path then
      match SapiByEndpoint(path[|SapiBase|..])
      case Some(r) => Some(Savings(r))
      case None => None
    else if path[7] == '1' && FapiV1Base <= path then
      match FapiV1ByEndpoint(path[|FapiV1Base|..])
      case Some(r) => Some(Api.Futures(r))
      case None => None
    else if path[7] == '2' && FapiV2Base <= path then
      match FapiV2ByEndpoint(path[|FapiV2Base|..])
      case Some(r) => Some(Api.Futures(r))
      case None => None
    else if path[7] == 's' && FuturesDataBase <= path then
      match FuturesDataByEndpoint(path[|FuturesDataBase|..])
      case Some(r) => Some(Api.Futures(r))
      case None => None
    else None
  }

  // Recognising each base path reduces the reverse lookup of a full path
  // to the lookup of its relative part below that base.

  lemma RouteOfSpotBase(rest: string)
    ensures RouteOf(SpotBase + rest) == match SpotByEndpoint(rest)
                                        case Some(r) => Some(Api.Spot(r))
                                        case None => None
  {
    assert (SpotBase + rest)[|SpotBase|..] == rest;
  }

  lemma RouteOfSapiBase(rest: string)
    ensures RouteOf(SapiBase + rest) == match SapiByEndpoint(rest)
                                        case Some(r) => Some(Savings(r))
                                        case None => None
  {
    assert (SapiBase + rest)[|SapiBase|..] == rest;
  }

  lemma RouteOfFapiV1Base(rest: string)
    ensures RouteOf(FapiV1Base + rest) == match FapiV1ByEndpoint(rest)
                                          case Some(r) => Some(Api.Futures(r))
                                          case None => None
  {
    assert (FapiV1Base + rest)[|FapiV1Base|..] == rest;
  }

  lemma RouteOfFapiV2Base(rest: string)
    ensures RouteOf(FapiV2Base + rest) == match FapiV2ByEndpoint(rest)
                                          case Some(r) => Some(Api.Futures(r))
                                          case None => None
  {
    assert (FapiV2Base + rest)[|FapiV2Base|..] == rest;
  }

  lemma RouteOfFuturesDataBase(rest: string)
    ensures RouteOf(FuturesDataBase + rest) == match FuturesDataByEndpoint(rest)
                                               case Some(r) => Some(Api.Futures(r))
                                               case None => None
  {
    assert (FuturesDataBase + rest)[|FuturesDataBase|..] == rest;
  }

  // Each relative-path table is inverted by the lookup below its base.

  lemma SpotEndpointRoundTrip(r: Spot)
    ensures SpotByEndpoint(SpotEndpoint(r)) == Some(r)
  {
    match r
    case _ => {}
  }

  lemma SapiEndpointRoundTrip(r: Sapi)
    ensures SapiByEndpoint(SapiEndpoint(r)) == Some(r)
  {
    match r
    case _ => {}
  }

  // The `/fapi/v1/` table is inverted in four parts, by the first letters of
  // the relative paths, to keep each proof small.

  /** The `/fapi/v1/` endpoints whose relative paths start with `p` and `t`. */
  lemma FapiV1RoundTripGroup1(r: Futures)
    requires r == Futures.Ping
      || r == Futures.PremiumIndex
      || r == Futures.PositionSide
      || r == Futures.PositionMargin
      || r == Futures.Time
      || r == Futures.Trades
      || r == Futures.Ticker24hr
      || r == Futures.TickerPrice
      || r == Futures.BookTicker
    ensures FapiV1ByEndpoint(FuturesEndpoint(r).1) == Some(r)
  {
    match r
    case _ => {}
  }

  /** The `/fapi/v1/` endpoints whose relative paths start with `e`, `d`, `h`, `a`, `k` and `c`. */
  lemma FapiV1RoundTripGroup2(r: Futures)
    requires r == Futures.ExchangeInfo
      || r == Futures.Depth
      || r == Futures.HistoricalTrades
      || r == Futures.AggTrades
      || r == Futures.AllForceOrders
      || r == Futures.AllOpenOrders
      || r == Futures.AllOrders
      || r == Futures.Klines
      || r == Futures.ContinuousKlines
    ensures FapiV1ByEndpoint(FuturesEndpoint(r).1) == Some(r)
  {
    match r
    case _ => {}
  }

  /** The `/fapi/v1/` endpoints whose relative paths start with `i`, `m`, `f` and `u`. */
  lemma FapiV1RoundTripGroup3(r: Futures)
    requires r == Futures.IndexPriceKlines
      || r == Futures.IndexInfo
      || r == Futures.Income
      || r == Futures.MarkPriceKlines
      || r == Futures.MarginType
      || r == Futures.FundingRate
      || r == Futures.UserTrades
    ensures FapiV1ByEndpoint(FuturesEndpoint(r).1) == Some(r)
  {
    match r
    case _ => {}
  }

  /** The `/fapi/v1/` endpoints whose relative paths start with `o` and `l`. */
  lemma FapiV1RoundTripGroup4(r: Futures)
    requires r == Futures.Order
      || r == Futures.OpenInterest
      || r == Futures.OpenOrders
      || r == Futures.LvtKlines
      || r == Futures.ChangeInitialLeverage
      || r == Futures.UserDataStream
    ensures FapiV1ByEndpoint(FuturesEndpoint(r).1) == Some(r)
  {
    match r
    case _ => {}
  }

  lemma FapiV1EndpointRoundTrip(r: Futures)
    requires FuturesEndpoint(r).0 == FapiV1
    ensures FapiV1ByEndpoint(FuturesEndpoint(r).1) == Some(r)
  {
    match r
    case Ping | PremiumIndex | PositionSide | PositionMargin | Time | Trades |
      Ticker24hr | TickerPrice | BookTicker =>
      FapiV1RoundTripGroup1(r);
    case ExchangeInfo | Depth | HistoricalTrades | AggTrades | AllForceOrders |
      AllOpenOrders | AllOrders | Klines | ContinuousKlines =>
      FapiV1RoundTripGroup2(r);
    case IndexPriceKlines | IndexInfo | Income | MarkPriceKlines | MarginType |
      FundingRate | UserTrades =>
      FapiV1RoundTripGroup3(r);
    case Order | OpenInterest | OpenOrders | LvtKlines |
      ChangeInitialLeverage | UserDataStream =>
      FapiV1RoundTripGroup4(r);
    case _ =>
      assert false;
  }

  lemma FapiV2EndpointRoundTrip(r: Futures)
    requires FuturesEndpoint(r).0 == FapiV2
    ensures FapiV2ByEndpoint(FuturesEndpoint(r).1) == Some(r)
  {
    match r
    case _ => {}
  }

  lemma FuturesDataEndpointRoundTrip(r: Futures)
    requires FuturesEndpoint(r).0 == FuturesData
    ensures FuturesDataByEndpoint(FuturesEndpoint(r).1) == Some(r)
  {
    match r
    case _ => {}
  }

  /** The reverse lookup inverts `Path` on every route. */
  lemma RouteOfPath(a: Api)
    ensures RouteOf(Path(a)) == Some(a)
  {
    match a
    case Spot(r) =>
      RouteOfSpotBase(SpotEndpoint(r));
      SpotEndpointRoundTrip(r);
    case Savings(r) =>
      RouteOfSapiBase(SapiEndpoint(r));
      SapiEndpointRoundTrip(r);
    case Futures(r) =>
      var (base, rest) := FuturesEndpoint(r);
      match base
      case FapiV1 =>
        RouteOfFapiV1Base(rest);
        FapiV1EndpointRoundTrip(r);
      case FapiV2 =>
        RouteOfFapiV2Base(rest);
        FapiV2EndpointRoundTrip(r);
      case FuturesData =>
        RouteOfFuturesDataBase(rest);
        FuturesDataEndpointRoundTrip(r);
  }

  /** Resolution is injective: distinct routes never share a path. */
  lemma PathInjective(a: Api, b: Api)
    ensures Path(a) == Path(b) <==> a == b
  {
    RouteOfPath(a);
    RouteOfPath(b);
  }
}
