/**
 * The futures "general" facade of src/binance/futures/general.rs: connectivity
 * check, exchange information and the symbol lookup built on it.
 *
 * The facade's only field is its HTTP client. The client's typed GET is
 * foreign code, so it is a parameter here: one function per response type,
 * from the route requested to the decoded result or the transport's error.
 */
module General {
  import opened Wrappers
  import opened Routes

  /** One tradeable instrument; only its code is inspected by this facade. */
  datatype Symbol = Symbol(symbol: string, attributes: map<string, string>)

  /** The exchange information response; only its symbol list is used here. */
  datatype ExchangeInformation = ExchangeInformation(symbols: seq<Symbol>)

  datatype ServerTime = ServerTime(serverTime: int)

  /** The typed GET requests of the HTTP client, by response type. */
  datatype Client = Client(
    getEmpty: Api -> Result<()>,
    getServerTime: Api -> Result<ServerTime>,
    getExchangeInfo: Api -> Result<ExchangeInformation>)

  /** The one error this facade raises itself. */
  const SymbolNotFound: Error := Msg("Symbol not found")

  /** `ping`: "pong" when the exchange answers the ping route; otherwise its error. */
  function Ping(client: Client): (r: Result<string>)
    ensures r.Ok? <==> client.getEmpty(Api.Futures(Futures.Ping)).Ok?
    ensures r.Ok? ==> r.value == "pong"
    ensures r.Err? ==> r.error == client.getEmpty(Api.Futures(Futures.Ping)).error
  {
    match client.getEmpty(Api.Futures(Futures.Ping))
    case Ok(_) => Ok("pong")
    case Err(e) => Err(e)
  }

  /** `get_server_time`: the decoded answer of the time route. */
  function GetServerTime(client: Client): (r: Result<ServerTime>)
    ensures r == client.getServerTime(Api.Futures(Futures.Time))
    ensures Path(Api.Futures(Futures.Time)) == "/fapi/v1/time"
  {
    client.getServerTime(Api.Futures(Futures.Time))
  }

  /** `exchange_info`: the decoded answer of the exchange-information route. */
  function ExchangeInfo(client: Client): (r: Result<ExchangeInformation>)
    ensures r == client.getExchangeInfo(Api.Futures(Futures.ExchangeInfo))
    ensures Path(Api.Futures(Futures.ExchangeInfo)) == "/fapi/v1/exchangeInfo"
  {
    client.getExchangeInfo(Api.Futures(Futures.ExchangeInfo))
  }

  /** `get_all_symbol_info`: the fetched symbol list, unchanged, or the fetch error. */
  function GetAllSymbolInfo(client: Client): (r: Result<seq<Symbol>>)
    ensures ExchangeInfo(client).Ok? ==> r == Ok(ExchangeInfo(client).value.symbols)
    ensures ExchangeInfo(client).Err? ==> r == Err(ExchangeInfo(client).error)
  {
    match ExchangeInfo(client)
    case Ok(info) => Ok(info.symbols)
    case Err(e) => Err(e)
  }

  // Upper-casing, restricted to ASCII letters.

  function UpperChar(c: char): char
  {
    if 'a' <= c <= 'z' then (c as int - 'a' as int + 'A' as int) as char else c
  }

  predicate IsLowerChar(c: char)
  {
    'a' <= c <= 'z'
  }

  /** `to_uppercase`, letter by letter. */
  function ToUppercase(s: string): (r: string)
    ensures |r| == |s|
    ensures forall k :: 0 <= k < |s| ==> r[k] == UpperChar(s[k])
  {
    if s == [] then [] else [UpperChar(s[0])] + ToUppercase(s[1..])
  }

  /** An upper-cased string has no lower-case letter left. */
  lemma UppercaseHasNoLower(s: string)
    ensures forall k :: 0 <= k < |s| ==> !IsLowerChar(ToUppercase(s)[k])
  {
  }

  /** Upper-casing twice changes nothing more. */
  lemma UppercaseIdempotent(s: string)
    ensures ToUppercase(ToUppercase(s)) == ToUppercase(s)
  {
  }

  /**
   * The specification of the scan: the position of the first record whose
   * code is exactly `code`, or none when no record has it.
   */
  function FirstMatch(symbols: seq<Symbol>, code: string): (r: Option<nat>)
    ensures r.Some? ==> r.value < |symbols| && symbols[r.value].symbol == code
    ensures r.Some? ==> forall j :: 0 <= j < r.value ==> symbols[j].symbol != code
    ensures r.None? ==> forall j :: 0 <= j < |symbols| ==> symbols[j].symbol != code
  {
    if symbols == [] then None
    else if symbols[0].symbol == code then Some(0)
    else
      match FirstMatch(symbols[1..], code)
      case Some(k) => Some(k + 1)
      case None => None
  }

  /**
   * `get_symbol_info`: upper-cases the requested code, fetches the exchange
   * information and scans its symbols in order for the first exact match.
   * A fetch error is returned as it is; an empty scan is "Symbol not found".
   */
  method GetSymbolInfo(client: Client, symbol: string) returns (r: Result<Symbol>)
    ensures ExchangeInfo(client).Err? ==> r == Err(ExchangeInfo(client).error)
    ensures ExchangeInfo(client).Ok? ==>
      var symbols := ExchangeInfo(client).value.symbols;
      match FirstMatch(symbols, ToUppercase(symbol))
      case Some(k) => r == Ok(symbols[k])
      case None => r == Err(SymbolNotFound)
    ensures r.Ok? ==> r.value.symbol == ToUppercase(symbol)
  {
    var upperSymbol := ToUppercase(symbol);
    match ExchangeInfo(client) {
      case Ok(info) =>
        for i := 0 to |info.symbols|
          invariant forall j :: 0 <= j < i ==> info.symbols[j].symbol != upperSymbol
        {
          if info.symbols[i].symbol == upperSymbol {
            return Ok(info.symbols[i]);
          }
        }
        return Err(SymbolNotFound);
      case Err(e) =>
        return Err(e);
    }
  }
}
