# Kalshi NYC high-temperature resolvers, modelled in Dafny

The repository serves two HTTP handlers for the Kalshi "highest temperature in
New York City" event of a given day:

- **`/api/kalshi`** (`api/kalshi.js`) reports which market of the event
  *settled*.
  - It builds two spellings of the event ticker from a `YYYY-MM-DD` date
    (`HIGHNY-…` and `KXHIGHNY-…`) and tries three upstream queries in a fixed
    order: the event with its nested markets, then the markets listed by event
    ticker, then the settled markets of the whole series, filtered locally.
  - Each query's winner comes from a three-rule priority: `result === "yes"`,
    then a non-null `settlement_value`, then a status of `finalized` or
    `settled`.
  - The winner is reported as a label and an exact temperature.
  - Responses: 400 for a bad date, 204 when nothing settled, 200 with the
    winner, 502 when something threw.
- **`/api/kalshi-live`** (`api/kalshi-live.js`) reports the *currently
  leading* market.
  - It reads the markets of the event under the `KXHIGHNY-…` spelling and
    keeps those whose status reads `open`.
  - Each open market gets an implied YES probability: the first finite direct
    price field, else the order-book midpoint or the one side quoted.
    Cent prices are normalised to dollars, and anything outside [0, 1] is
    dropped.
  - It reports the first market with the strictly highest probability.

The model has three modules:

- `Js` (`js.dfy`) holds the JavaScript semantics both handlers depend on:
  - JSON values, with `undefined` for a missing property;
  - truthiness and `== null`;
  - property reads that throw on null or undefined;
  - `a || b || …` chains;
  - `toLowerCase`;
  - the `Number(x)` coercion of parsed JSON values, including the string
    grammar: white-space trimming, `Infinity`, `0x`/`0o`/`0b` literals,
    decimals and exponents; arrays convert through their joined string. The
    one exception is an object with its own `toString` key, listed under
    "Left out".
- `Kalshi` (`kalshi.dfy`) models `api/kalshi.js`.
- `KalshiLive` (`kalshi_live.dfy`) models `api/kalshi-live.js`.

The pure helpers of the source are functions:
`makeTickers`, `pickWinner` with its three `find` calls, `winnerToInfo`,
`toKalshiEventTicker` and `numOrNull`.

The parts that work step by step are methods with loops, each proved against
a specification function:

- `pathNum`'s walk is specified by `Walk`.
- `impliedYesProb`'s reassignments of `p` are specified by `Score`.
- The leader loop's "first maximum" is specified by `IsLeader`.
- The handler's loops over the tickers, with their early `break`s and
  `if (!info)` gates, are specified by `Settle`, a cascade over a fixed plan
  of five queries.

Each fetch is answered by a parameter `upstream: Request -> Reply`. A reply is
one of:

- `Rejected`: `fetch` or `r.json()` threw;
- `NotOk`;
- `Body(json)`.

A TypeError raised inside the `try` block becomes `Completion.Throw`. Examples
are reading `.result` of a null element, calling `toLowerCase` on a truthy
non-string status, and calling `.filter` on a truthy non-array. Such a throw
maps to 502, as the `catch` block does.

The date check is a shape check only. A month outside 1..12 indexes past the
month table, and the template literal renders it as `undefined`. The model
keeps this case: `MonthAbbrev` returns `"undefined"`, and
`Kalshi.OutOfRangeMonthsCollide` shows that such dates share their tickers.

`toLowerCase` is modelled on ASCII letters only. This is exact for every
comparison the handlers make. Lowering a non-ASCII character yields an ASCII
letter only for KELVIN SIGN (to `k`) and DOTTED CAPITAL I (to `i` followed by
a combining dot). No `k` occurs in `open`, `finalized` or `settled`, and the
combining dot can never be part of a match. So a status matches one of those
words under full Unicode lowering exactly when it does under ASCII lowering.

## Model

| member | source | states |
|---|---|---|
| Js.LowerMatches | api/kalshi.js:89 | a string lowers to a given lower-case word exactly when it has the word's length and each character is the word's letter or its upper-case form |
| Js.FirstTruthy | api/kalshi.js:95 | an or-chain (`a or b or c`) yields the first truthy operand, the fallback when none is truthy, and a truthy result whenever the fallback is truthy |
| Js.TrimStart | api/kalshi-live.js:110 | the trimmed string is a suffix of the input and does not start with white space |
| Js.TrimStartRemovesWhite | api/kalshi-live.js:110 | everything trimmed from the start is white space |
| Js.TrimEnd | api/kalshi-live.js:110 | the trimmed string is a prefix of the input and does not end with white space |
| Js.TrimEndRemovesWhite | api/kalshi-live.js:110 | everything trimmed from the end is white space |
| Js.ToNumber | api/kalshi-live.js:110 | `Number(undefined)` is NaN, `Number(null)` is 0, a number converts to itself, an object to NaN |
| Js.DecimalDigitsNumber | api/kalshi-live.js:110 | a non-empty string of decimal digits converts to its decimal value |
| Js.NegatedLiteral | api/kalshi-live.js:110 | a leading `-` before an unsigned decimal literal negates its value |
| Js.NumberOfTrimmed | api/kalshi-live.js:110 | a string converts as its trimmed form does |
| Js.SurroundingWhiteIgnored | api/kalshi-live.js:110 | white space before and after a string does not change its conversion |
| Js.SingletonArrayNumber | api/kalshi-live.js:110 | a one-element array whose element is neither nullish nor a boolean converts like its element |
| Js.TwoDigitLiteral | api/kalshi.js:77 | a two-digit decimal literal converts to its decimal value |
| Js.TwoDigitNumber | api/kalshi.js:77 | `Number(M)` of a two-digit string is its decimal value |
| Kalshi.MonthNumber | api/kalshi.js:75-77 | the month field of a well-shaped date reads as a number of at most 99 |
| Kalshi.MonthIsNumber | api/kalshi.js:75-77 | the month used to index the table is exactly `Number(M)` of the date's month field |
| Kalshi.MonthAbbrev | api/kalshi.js:77 | months 1..12 give the three-letter table entry; any other month renders as `undefined` |
| Kalshi.MakeTickers | api/kalshi.js:74-82 | exactly two tickers, `HIGHNY-` first and `KXHIGHNY-` second, sharing the suffix of year's last two characters, month abbreviation and day field |
| Kalshi.TickerDeterminesDate | api/kalshi.js:74-82 | for in-range months, equal tickers under either spelling mean equal year digits, month and day |
| Kalshi.OutOfRangeMonthsCollide | api/kalshi.js:77 | two dates with out-of-range months and the same year digits and day get the same tickers, spelled with `undefined` |
| Kalshi.MonthZeroAndThirteenCollide | api/kalshi.js:77 | `2024-00-05` and `2024-13-05` pass the date check and both give `KXHIGHNY-24undefined05` |
| Kalshi.Test | api/kalshi.js:87-89 | a rule's test throws exactly on a null or undefined element or, for the status rule, on a truthy status that is not a string; it matches only objects; the result rule compares `result` with "yes", the settlement rule checks `settlement_value` is not nullish, and the status rule never matches a falsy status and compares a string status lowercased against `finalized`/`settled` |
| Kalshi.FindFrom | api/kalshi.js:87-89 | a found index lies in the part of the list still to scan |
| Kalshi.FindFromSpec | api/kalshi.js:87-89 | `find` from an index returns the first match, returns nothing exactly when no element matches, and throws only at an element whose test throws after only non-matches |
| Kalshi.Find | api/kalshi.js:87-89 | a found index is an index of the list |
| Kalshi.FindSpec | api/kalshi.js:87-89 | `markets.find(rule)` returns the first matching element; it returns nothing exactly when none matches; a throw comes from the first element whose test throws |
| Kalshi.PickWinner | api/kalshi.js:84-85 | a value that is not an array has no winner |
| Kalshi.PickWinnerSpec | api/kalshi.js:84-91 | a winner is an object in the list, chosen by the first rule that matches anything, and is that rule's first match; no winner means no rule matches any element; a throw comes from some element's test |
| Kalshi.FindFirstMatch | api/kalshi.js:87-89 | `find` returns exactly the first element its rule matches |
| Kalshi.YesWins | api/kalshi.js:86-87 | the first market with `result === "yes"` wins, whatever follows it |
| Kalshi.SettlementBeatsStatus | api/kalshi.js:86-88 | with no "yes" market, the first market with a settlement value wins over any status match |
| Kalshi.StatusLast | api/kalshi.js:86-90 | the status rule decides only when both stronger rules match nothing |
| Kalshi.PickWinnerExample | api/kalshi.js:84-91 | for `[{result:"no"}, {result:"yes", settlement_value:5}, {settlement_value:9}]` the second market wins |
| Kalshi.WinnerToInfo | api/kalshi.js:93-101 | there is info exactly when the winner is truthy, and its label is always truthy |
| Kalshi.InfoFallbacks | api/kalshi.js:95-99 | the label is the subtitle, else the title, else the ticker, else "Settled"; the temperature is `Number(expiration_value)` when it is not nullish, else `Number(settlement_value)`, and absent exactly when both are nullish |
| Kalshi.ExpirationPreferred | api/kalshi.js:96-98 | `{expiration_value: 82, settlement_value: 80}` reports 82 with the label "Settled" |
| Kalshi.AttemptDecides | api/kalshi.js:21-44 | an ok reply to the event or markets query aborts exactly when `pickWinner` throws, skips exactly when it finds no winner, and otherwise hits with the queried ticker and the info of the picked winner |
| Kalshi.FilterByEvent | api/kalshi.js:54 | the kept markets are exactly the listed objects whose `event_ticker` is the ticker; a falsy listing keeps nothing; the filter throws exactly when the listing is truthy and either not an array or holding a null element |
| Kalshi.KeepTicker | api/kalshi.js:54 | the filter's callback keeps exactly the elements whose `event_ticker` is the ticker, and throws exactly when some element is null or undefined |
| Kalshi.KeepTickerAppend | api/kalshi.js:54 | the filter keeps list order: on a concatenation it keeps the kept markets of each half, concatenated, and throws when either half throws |
| Kalshi.KeepTickerSingle | api/kalshi.js:54 | a single market throws when nullish, and is kept exactly when its `event_ticker` is the ticker |
| Kalshi.TickerVerdict | api/kalshi.js:54-56 | one ticker skips exactly when its filter succeeds and no winner is picked, aborts exactly when the filter or `pickWinner` throws, and otherwise hits with that ticker and the info of the picked winner |
| Kalshi.SeriesScan | api/kalshi.js:53-57 | a hit from the series listing names one of the tickers |
| Kalshi.SeriesScanIsCascade | api/kalshi.js:53-57 | the loop over the tickers decides as the first-decides cascade over the tickers' verdicts |
| Kalshi.SeriesScanFirst | api/kalshi.js:53-57 | the loop skips exactly when every ticker skips; otherwise its verdict is that of the first ticker that does not skip, all earlier ones having skipped |
| Kalshi.Attempt | api/kalshi.js:21-58 | a rejected fetch aborts, a non-ok reply only skips, and a hit names the queried ticker (for the series query, one of the tickers) |
| Kalshi.Plan | api/kalshi.js:21-58 | the query order: strategy 1 on each ticker, strategy 2 on each ticker, then the single series query |
| Kalshi.Cascade | api/kalshi.js:17-59 | the number of attempts made is at most the plan's length; all of them are made when none decides; otherwise the last one made decides |
| Kalshi.Strategies | api/kalshi.js:17-70 | the `try` block never answers 400, a found ticker is one of the two, the queries made are a non-empty prefix of the plan, and 204 means every query was made |
| Kalshi.Settle | api/kalshi.js:9-70 | 400 exactly when the date is missing or misshapen; otherwise as `Strategies` for the date's tickers |
| Kalshi.CascadeSkipsBefore | api/kalshi.js:28-47 | every attempt before the deciding one skipped, and every attempt skipped when none decided |
| Kalshi.CascadeFirst | api/kalshi.js:28-56 | the cascade skips exactly when every attempt skips; otherwise the first attempt that does not skip decides |
| Kalshi.CascadeAt | api/kalshi.js:28-47 | the first attempt that does not skip decides, after exactly that many attempts |
| Kalshi.CascadeAllSkip | api/kalshi.js:33-63 | when every attempt skips, all are made and the verdict is to skip |
| Kalshi.Run | api/kalshi.js:18-59 | walking the plan attempt by attempt makes at most all its queries, all of them when nothing decides |
| Kalshi.RunIsCascade | api/kalshi.js:18-59 | the step-by-step walk of the handler's loops equals the cascade over the verdicts of the whole plan |
| Kalshi.CascadePrefix | api/kalshi.js:28-56 | two verdict lists that agree on the attempts made cascade to the same result |
| Kalshi.OnlyQueriedRepliesMatter | api/kalshi.js:17-59 | two upstreams that answer the queries made alike give the same response and the same queries |
| Kalshi.EventsFirst | api/kalshi.js:21-47 | a markets or series query is made only after the event query was made and skipped for every ticker |
| Kalshi.MarketsBeforeSeries | api/kalshi.js:33-48 | the series query is made only after the markets query was made and skipped for every ticker |
| Kalshi.SkippedBefore | api/kalshi.js:21-58 | the queries made are a prefix of the plan, and every one before a given position skipped |
| Kalshi.AllNotOkIsNoContent | api/kalshi.js:25-63 | when every reply is not ok, all five queries are made and the answer is 204 |
| Kalshi.FetchEvent | api/kalshi.js:22-29 | strategy 1 for one ticker yields the attempt's verdict for its reply |
| Kalshi.FetchMarkets | api/kalshi.js:35-42 | strategy 2 for one ticker yields the attempt's verdict for its reply |
| Kalshi.FetchSeries | api/kalshi.js:48-58 | the series query with its local loop over the tickers yields the attempt's verdict for its reply |
| Kalshi.EventStage | api/kalshi.js:21-30 | the strategy 1 loop makes a prefix of the plan's first two queries, all of them when it finds nothing, and agrees with the step-by-step walk |
| Kalshi.MarketsStage | api/kalshi.js:33-44 | the strategy 2 loop makes a prefix of the plan's next two queries, all of them when it finds nothing, and agrees with the walk from there |
| Kalshi.TailStages | api/kalshi.js:33-59 | strategies 2 and 3 together make a prefix of the last three queries and agree with the walk from the third query on |
| Kalshi.RunStrategies | api/kalshi.js:17-71 | the `try` block with its gated loops answers as `Strategies` and makes the same queries |
| Kalshi.Resolve | api/kalshi.js:9-71 | the handler answers as `Settle` and makes the same queries |
| KalshiLive.ToKalshiEventTicker | api/kalshi-live.js:63-68 | the live ticker is the `KXHIGHNY-` spelling of the settled resolver's tickers |
| KalshiLive.NumOrNull | api/kalshi-live.js:109-112 | a number exactly when `Number(x)` is finite, and then that number; null gives 0, undefined gives no number |
| KalshiLive.Walk | api/kalshi-live.js:113-118 | an empty path leaves the value where it is |
| KalshiLive.WalkAppend | api/kalshi-live.js:113-118 | walking a path in two pieces is walking it at once |
| KalshiLive.PathStopsAtFailedStep | api/kalshi-live.js:116 | a step at a falsy value, a non-object or a missing key gives null, whatever follows it in the path |
| KalshiLive.PathNum | api/kalshi-live.js:113-120 | the loop over the path returns `numOrNull` of the leaf when every step succeeds, else null |
| KalshiLive.Candidates | api/kalshi-live.js:76-82 | there are at most as many candidates as price fields |
| KalshiLive.CandidatesFirst | api/kalshi-live.js:76-84 | there are no candidates exactly when no price field is finite; otherwise the first candidate is the value of the first finite field |
| KalshiLive.BookPriceBetween | api/kalshi-live.js:88-97 | with both sides quoted, the book price is their midpoint, between bid and ask; with one side, it is that side; with none, there is no price |
| KalshiLive.Normalize | api/kalshi-live.js:99-106 | a result lies in [0, 1]; values in [0, 1] stay, values in (1, 100] are divided by 100, anything else gives null |
| KalshiLive.NormalizeIdempotent | api/kalshi-live.js:103-105 | normalising twice is normalising once |
| KalshiLive.CentsReadAsDollars | api/kalshi-live.js:103 | a price of 100x, for x in (0.01, 1], reads as x |
| KalshiLive.CandidatesIgnoreOtherFields | api/kalshi-live.js:76-82 | the candidates depend only on the listed price fields |
| KalshiLive.DirectPriceShadowsBook | api/kalshi-live.js:84-87 | with a finite direct price, replacing `order_book` leaves the probability unchanged |
| KalshiLive.NullPriceIsZero | api/kalshi-live.js:76-84 | `last_price: null` is a price of 0 and shadows a later `yes_price` |
| KalshiLive.QuotedBookBid | api/kalshi-live.js:88 | the bid is read from `order_book.yes.best_bid.price` |
| KalshiLive.QuotedBookAsk | api/kalshi-live.js:89 | the ask is read from `order_book.yes.best_ask.price` |
| KalshiLive.QuotedBookPrice | api/kalshi-live.js:90-91 | a book quoting both sides is priced at the midpoint |
| KalshiLive.NoPriceFields | api/kalshi-live.js:76-84 | a market without any of the five price fields has no direct price |
| KalshiLive.BookFallback | api/kalshi-live.js:84-106 | without a finite direct price, a truthy `order_book` decides: the probability is the normalised book price |
| KalshiLive.BookMidpointInCents | api/kalshi-live.js:87-106 | a book quoted in cents gives the midpoint in dollars, and a crossed book is accepted |
| KalshiLive.OpenMarkets | api/kalshi-live.js:32 | the filter keeps exactly the listed objects whose status reads `open`, and throws exactly when an element is null or undefined |
| KalshiLive.OpenMarketsAppend | api/kalshi-live.js:32 | the filter keeps list order: on a concatenation it keeps the open markets of each half, concatenated, and throws when either half throws |
| KalshiLive.OpenMarketsSingle | api/kalshi-live.js:32 | a single market throws when nullish, and is kept exactly when its status reads `open` |
| KalshiLive.LabelOf | api/kalshi-live.js:43 | the label chain always yields a truthy label |
| KalshiLive.LeaderUnique | api/kalshi-live.js:37-47 | at most one market is the first with the highest probability |
| KalshiLive.LeaderExists | api/kalshi-live.js:37-49 | when some market has a probability, a leader exists |
| KalshiLive.Leader | api/kalshi-live.js:36-47 | the loop finds nothing exactly when no open market has a probability; otherwise it keeps the first market with the highest probability, with its label and ticker |
| KalshiLive.EitherPathNum | api/kalshi-live.js:88-89 | one side of the book is its first path's number, else its second's |
| KalshiLive.BookQuote | api/kalshi-live.js:87-97 | the order-book branch computes the book price |
| KalshiLive.ImpliedYesProb | api/kalshi-live.js:74-107 | the reassignments of `p` compute `Score`, and any result lies in [0, 1] |
| KalshiLive.RoundCents | api/kalshi-live.js:54 | rounding to cents moves the value by at most half a cent and keeps it in [0, 1] |
| KalshiLive.ResolveLive | api/kalshi-live.js:13-60 | 400 exactly for a missing or misshapen date; 502 for a failed fetch, a non-ok reply or a throwing filter; 204 when no open market has a probability; otherwise 200 with the leader's label and its rounded probability, which lies in [0, 1] |

## Left out

- CORS, `Vary` and `Cache-Control` headers, the OPTIONS preflight and `console.error`: these are response plumbing with no effect on the answer.
- `fetch`, `r.json()` and URL encoding of the ticker: these are replaced by the `upstream` parameter, which answers each query with `Rejected`, `NotOk` or a parsed body.
- The 200 response's constant `url` field and the JSON error bodies: they are constant text.
- IEEE doubles: prices, temperatures and `Number(x)` are reals. So overflow to `Infinity`, of a huge numeric string or of a JSON number literal beyond the double range (which `JSON.parse` reads as `Infinity`, making `numOrNull` drop it), and binary rounding of decimal fractions, are not modelled.
- KalshiLive.RoundCents: models `Math.round(p * 100) / 100` exactly on reals, as the floor of `p * 100 + 0.5` divided by 100; the double multiplication and division are not modelled.
- A `date` query parameter given more than once, which arrives as an array: the model takes the date as an optional string.
- Array properties named by strings (`length`, numeric strings such as `"0"`) in `k in cur`: the paths walked by `pathNum` index arrays by number only.
- Objects with inherited or accessor properties: a parsed JSON object has only own data properties.
- The `makeTickers` call sits before the `try` block, but it cannot throw for a date that passed the shape check, so its position makes no difference.
- `NaN` in a 200 response (for example `exactTemp` from a non-numeric string): the model keeps the `JsNumber` value, and how `JSON.stringify` prints it (as null) is not modelled.
- Kalshi.PickWinner: its own contract states only the non-array case; what it chooses is stated by `Kalshi.PickWinnerSpec`, which every caller uses.
- Kalshi.WinnerToInfo: its own contract states only when info exists and that the label is truthy; the fallback orders are stated by `Kalshi.InfoFallbacks`. `Number(...)` of an exact temperature that is an object with its own `toString` key throws a TypeError in JavaScript, so the handler answers 502; the model reads it as NaN instead.
- Kalshi.Attempt: its own contract states only the rejected and non-ok replies and which ticker a hit names; what an ok reply decides is stated by `Kalshi.AttemptDecides` for the event and markets queries and by `Kalshi.SeriesScanFirst` with `Kalshi.TickerVerdict` for the series query.
- Kalshi.KeepTicker: its own contract states membership only; the list order is stated by `Kalshi.KeepTickerAppend` and `Kalshi.KeepTickerSingle`.
- KalshiLive.OpenMarkets: its own contract states membership only; the list order is stated by `KalshiLive.OpenMarketsAppend` and `KalshiLive.OpenMarketsSingle`. A status that is an object with its own `toString` key (or an array holding one) makes `String(...)` throw a TypeError, so the handler answers 502; the model treats such a market as not open.
- Js.ToNumber: an object with its own `toString` key, or an array holding one, makes `Number(...)` throw a TypeError in JavaScript (a parsed JSON value has no callable `toString` of its own); the model gives NaN instead.
- KalshiLive.NumOrNull: for a value that is, or holds, an object with its own `toString` key, `Number(x)` throws and the handler answers 502; the model gives null instead, as `Js.ToNumber` gives NaN.
- `api/nws-high-so-far.js` and `api/nws-current-temp.js` are not part of this model. They are fetch wrappers around floating-point unit conversion and time-zone formatting.
- Behaviours the code does not have are not modelled: an event-level settlement shortcut, rejection of a crossed book, `trading`/`active` counted as open, a fallback to the unfiltered markets, and an "upstream exhausted" classification.
