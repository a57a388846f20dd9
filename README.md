# Binance REST client core: endpoint registry, kline intervals, symbol lookup

This project is a Dafny model of the logic in a Rust client library for the
Binance REST API. The library has three pieces of logic. Everything else in it
forwards calls to an HTTP client.

- **Endpoint registry** (`routes.dfy`, module `Routes`). A route is a closed,
  two-level enumeration: `Api = Spot(Spot) | Savings(Sapi) | Futures(Futures)`.
  Spot has 23 endpoints, Sapi has 4 and Futures has 39. `Path` converts a
  route to its literal URL path. Each path is written as its versioned base
  (`/api/v3/`, `/sapi/v1/`, `/fapi/v1/`, `/fapi/v2/`, `/futures/data/`)
  followed by the relative part. The concatenation is exactly the literal in
  the source. `RouteOf` is a ghost reverse lookup, written independently of
  the forward table. It is used to prove that resolution is injective.
- **Kline intervals** (`intervals.dfy`, module `Intervals`). This module holds
  the 15 candlestick periods, their codes (`Name`), their durations in seconds
  (`Value`) and the fixed polling order (`Iterator`). The length of the
  one-month period comes from the clock's current month (`CurrentMonthDays`).
  It is the day difference between the first of the next month and the first
  of this month.
- **Calendar** (`naive_dates.dfy`, module `NaiveDates`). This models the part
  of the date library that `CurrentMonthDays` uses: checked construction of a
  date (`FromYmdOpt`) and the day count `DaysFromCe` over the proleptic
  Gregorian calendar, where 1 January of year 1 is day 1. The model proves
  that this count has no gaps (`NextDayNumber`). It also proves that the
  difference between two month starts equals the classical month-length
  table (`MonthSpan`).
- **Futures general facade** (`general.dfy`, module `General`). This covers
  `ping`, `get_all_symbol_info` and `get_symbol_info`. `get_symbol_info`
  upper-cases the requested code and scans the symbol list for the first
  exact match. The typed GET of the HTTP client is a parameter (`Client`):
  one function from route to result per response type.
- `wrappers.dfy` (module `Wrappers`) holds `Option`, `Result` and the error
  type. An error is either a message the library raises itself or an opaque
  transport failure.

Where the source's comments and its code disagree, the model follows the
code:
- The comment above `value` speaks of milliseconds, but the code returns seconds.
- The comment above `iterator` lists six periods, but the array has seven
  (`5m` is included).

The clock is a parameter: `Value` and `CurrentMonthDays` take the current
`(year, month)`. A panic of `unwrap` is modelled as `None`. It happens only
when the first of the next month is past the last year a date can hold.

## Model

| member | source | states |
|---|---|---|
| Routes.Path | src/binance/api.rs:98-175 | Resolution is total. Every path has length at least 2 and starts with `/`. Spot paths start with `/api/v3/`, Sapi paths with `/sapi/v1/`, and Futures paths with `/fapi/v1/`, `/fapi/v2/` or `/futures/data/` |
| Routes.SpotPath | src/binance/api.rs:101-125 | Every spot path strictly extends `/api/v3/` |
| Routes.SapiPath | src/binance/api.rs:126-131 | Every savings path strictly extends `/sapi/v1/` |
| Routes.FuturesPath | src/binance/api.rs:132-172 | Every futures path strictly extends the base it is hosted under |
| Routes.SpotEndpointRoundTrip | src/binance/api.rs:101-125 | Looking up the relative part of a spot path gives back its endpoint, so no two spot endpoints share a path |
| Routes.SapiEndpointRoundTrip | src/binance/api.rs:126-131 | The same for the savings endpoints |
| Routes.FapiV1EndpointRoundTrip | src/binance/api.rs:132-172 | The same for the futures endpoints under `/fapi/v1/` |
| Routes.FapiV2EndpointRoundTrip | src/binance/api.rs:155-168 | The same for the futures endpoints under `/fapi/v2/` (position risk, balance, account) |
| Routes.FuturesDataEndpointRoundTrip | src/binance/api.rs:158-162 | The same for the trading-statistics endpoints under `/futures/data/` |
| Routes.RouteOfPath | src/binance/api.rs:98-175 | The reverse lookup of every resolved path gives back the route |
| Routes.PathInjective | src/binance/api.rs:101-171 | Two routes have the same path if and only if they are the same route, across all namespaces |
| Intervals.Name | src/binance/api.rs:363-386 | Every code is a decimal magnitude without a leading zero, followed by one of the unit letters m, h, d, w, M |
| Intervals.NameInjective | src/binance/api.rs:363-386 | Two periods have the same code if and only if they are the same period |
| Intervals.CurrentMonthDays | src/binance/api.rs:428-449 | The day difference from the first of the month to the first of the next month (December rolls over to January of the next year) is the Gregorian month length. The result is absent only for December of the last representable year |
| Intervals.Value | src/binance/api.rs:388-409 | The duration fits in a u64 and is at least 60 seconds. Only the month can be absent (the panic case). The month lasts its Gregorian length times 86400 |
| Intervals.ValueMatchesName | src/binance/api.rs:363-409 | Every duration equals its code read as magnitude times unit: minute 60, hour 3600, day 86400, week 604800, month the current month's days times 86400 |
| Intervals.MonthValueExamples | src/binance/api.rs:406-408 | The month lasts 31 days in January and December 2023 and 30 days in April 2023 |
| Intervals.FebruaryValueExamples | src/binance/api.rs:406-408 | February lasts 28 days in 2023 and 1900 and 29 days in 2024 and 2000 |
| Intervals.FixedValue | src/binance/api.rs:389-405 | Every period except the month has the same duration whatever the clock says |
| Intervals.ValueIncreasing | src/binance/api.rs:340-409 | Durations strictly increase in declaration order, from 1m up to and including the month |
| Intervals.Iterator | src/binance/api.rs:411-423 | The polling order has seven periods, strictly in declaration order, and contains neither 1m nor 1M |
| NaiveDates.DaysInMonth | src/binance/api.rs:436-446 | A month lasts 28 to 31 days, and 29 exactly for February of a leap year |
| NaiveDates.YearLength | src/binance/api.rs:436-446 | Consecutive 1 January day numbers are 366 apart after a leap year and 365 apart otherwise |
| NaiveDates.FirstOfMonth | src/binance/api.rs:436-443 | The first of a month can be built exactly when its year is representable, so only the rollover past the last year yields nothing |
| NaiveDates.MonthSpan | src/binance/api.rs:436-446 | From the first of a month to the first of the next month, with December rolling over to the next year, the gap is that month's length |
| NaiveDates.NextDayNumber | src/binance/api.rs:446 | The day after any date gets the next day number, so the count behind the date subtraction has no gaps |
| General.Ping | src/binance/futures/general.rs:17-21 | Returns "pong" exactly when the GET of the futures ping route succeeds, and otherwise returns that GET's error |
| General.GetServerTime | src/binance/futures/general.rs:24-26 | The answer of the GET on the futures time route, whose path is `/fapi/v1/time` |
| General.ExchangeInfo | src/binance/futures/general.rs:30-32 | The answer of the GET on the futures exchange-information route, whose path is `/fapi/v1/exchangeInfo` |
| General.GetAllSymbolInfo | src/binance/futures/general.rs:54-60 | Returns the fetched symbol list unchanged and in order, or the fetch error |
| General.ToUppercase | src/binance/futures/general.rs:39 | Keeps the length and upper-cases each character in place |
| General.UppercaseHasNoLower | src/binance/futures/general.rs:39-44 | An upper-cased code has no lower-case letter, so a record it matches is fully upper-case |
| General.UppercaseIdempotent | src/binance/futures/general.rs:39 | Upper-casing an already upper-cased code leaves it unchanged |
| General.FirstMatch | src/binance/futures/general.rs:42-47 | Finds the first position whose record code equals the key, with no earlier match. It finds none exactly when no record has the code |
| General.GetSymbolInfo | src/binance/futures/general.rs:35-51 | A fetch error is returned unchanged. Otherwise the result is the first record, in list order, whose code equals the upper-cased request, or "Symbol not found" if no record matches. A returned record's code is the upper-cased request |

## Left out

- The constructors of the `Binance` trait (src/binance/api.rs:177-335) only copy the base URL and the receive window from the configuration into a client. They contain no logic.
- The HTTP client is not part of this model: signing, HTTP, JSON decoding and `get`/`post`/`put`/`delete`. Its typed GET is an input function from route to result.
- The user-stream facades (src/binance/userstream.rs, src/binance/futures/userstream.rs) are one-line calls of `post`/`put`/`delete` on the fixed `UserDataStream` routes. Those routes are covered by the registry.
- The range of representable years (-262144 to 262143) is that of the `chrono` releases that pack the year into 19 bits of an `i32`. The source pins no release, so this range is an assumption; it decides the one month for which `CurrentMonthDays` yields nothing.
- `Utc::now()` reads the clock, which is I/O. It is replaced by the `(year, month)` parameters. The model covers every month of every representable year.
- General.ToUppercase: upper-cases the ASCII letters only. Rust's `to_uppercase` follows Unicode, which can change other characters and even the length (`ß` becomes `SS`).
- `Duration::from_secs(n).as_secs()` returns `n`, so durations are plain integer seconds.
- Intervals.Value: the u64 products in the source cannot overflow, because the month has at most 31 days. The model multiplies unbounded integers and proves the result stays below 2^64.
- `iterator` returns a lazy iterator over an array. The model returns the sequence it yields.
- Only the `symbol` field of `Symbol` and the `symbols` field of `ExchangeInformation` are inspected. The other fields are kept as an opaque attribute map or are not modelled.
