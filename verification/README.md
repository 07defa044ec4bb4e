# DataTrench API client policy, address formatting and wallet form — a Dafny model

DataTrench is a Solana analytics dashboard that calls one third-party data API.
This project models the parts of it that carry logic rather than presentation:

- the API client (`src/utils/api.ts`): the status check that decides which HTTP
  replies are raised as errors, the retry policy (backoff delay, retry condition,
  at most three retries), the error normaliser `handleApiError`, the body shape
  checks, the field-by-field defaulting of trending tokens, the query strings of
  every endpoint, and the endpoints themselves as the composition of these;
- `shortenAddress` (`src/utils/format.ts`) and its six-character variant in the
  token modal;
- the wallet page (`src/pages/wallet.tsx`): the Solana address pattern, the
  address validator and the state the submit handler leaves behind.

Modules, one per concern:

| file | module | models |
|---|---|---|
| wrappers.dfy | `Wrappers` | `Option` and `Result` |
| jsvalue.dfy | `JsValue` | parsed JSON values, truthiness, `a \|\| b`, `v?.key`, `typeof`, `String(v)`, integer `toString` |
| http.dfy | `Http` | replies, the HTTP client's error object, `validateStatus` |
| retry.dfy | `Retry` | `retryDelay`, `retryCondition`, the retry loop |
| errors.dfy | `ApiErrors` | what a `try` block can throw, `handleApiError` |
| requests.dfy | `Requests` | each endpoint's path and query parameters |
| trending.dfy | `Trending` | the trending body check and transform |
| client.dfy | `Client` | every exported endpoint |
| format.dfy | `Format` | `shortenAddress`, the token modal's `formatAddress` |
| wallet.dfy | `WalletPage` | `SOLANA_ADDRESS_REGEX`, `validateWalletAddress`, `handleSubmit` |

The network is a parameter. For each request it says what every attempt
produces (a reply with a status and a body, or no reply with an optional error
code) and gives the retry library's network-or-idempotent test for each
attempt. That test is an opaque boolean.

Properties that come out of composing the pieces:

- The status check accepts 200–499. So a 401, 404, 429 or 400 reply is never
  raised as an HTTP error, and `handleApiError`'s branches for those statuses
  are never taken by an endpoint (`Client.NoAcceptedStatusReachesHandler`).
  Such bodies go to the shape checks instead: a passthrough endpoint returns a
  400 body as a success (`Client.BadRequestBodyIsReturned`). A 429 is never
  retried (`Retry.ShouldRetryIff`).
- An endpoint's own "Invalid response format" error is thrown inside the same
  `try` block. So `handleApiError` catches it as a non-HTTP error and the
  caller sees "An unexpected error occurred. Please try again."
  (`Client.LocalFailureIsGeneric`, `Client.NonArrayTrendingIsGeneric`).

Behaviour of the code worth knowing:

- A non-array trending body reaches the caller as the generic message, not as
  "Invalid response format".
- A 400 reply with a body message is not turned into an error carrying that
  message. It is accepted and returned as data.
- The basic wallet endpoint only checks that the body is an object. It does not
  check its `tokens`.
- The retry library counts a retry before it asks for the delay. So a request
  that keeps failing with 500 waits 2000, 4000 and 8000 ms, not 1000, 2000 and
  4000 ms (`Retry.PersistentServerErrorSchedule`).

## Model

| member | source | states |
|---|---|---|
| `Http.Settle` | src/utils/api.ts:28 | a reply is handed back iff its status is in 200..499; every raised error either has no response or a status outside that range, and never the timeout code |
| `Retry.RetryDelay` | src/utils/api.ts:34-36 | the delay never exceeds 10000 ms, equals 1000·2^n for n ≤ 3 and 10000 for n ≥ 4 |
| `Retry.RetryDelayMonotone` | src/utils/api.ts:34-36 | the delay is non-decreasing in the retry count |
| `Retry.ShouldRetryIff` | src/utils/api.ts:37-45 | for errors the transport can raise, an attempt is retried iff there was no reply, or its status was refused and it is a 500 or passes the library's own test; a 429 is never retried |
| `Retry.RetryFrom` | src/utils/api.ts:32-45 | the final attempt is the one after at most 3 retries; every earlier attempt failed retryably; with retries left, the final one is not retryable |
| `Retry.Execute` | src/utils/api.ts:32-45 | the retry loop returns the same final attempt as `RetryFrom`, with one delay per retry, the k-th being `RetryDelay(k)` |
| `Retry.PersistentServerErrorSchedule` | src/utils/api.ts:33-41 | a request that always gets 500 ends after exactly 3 retries, waiting 2000, 4000 and 8000 ms |
| `Retry.AcceptedReplyIsFinal` | src/utils/api.ts:28-45 | a first reply the status check accepts ends the request with no retry |
| `ApiErrors.HandleApiError` | src/utils/api.ts:191-219 | every error maps to one message: timeout code first, then missing response, then 401/404/429/500 fixed texts, 400 and other statuses take the body message or their fallback, non-HTTP errors the generic text |
| `ApiErrors.TimeoutTakesPrecedence` | src/utils/api.ts:194-195 | a timeout code reports "Request timed out" even when a response is attached |
| `ApiErrors.FixedStatusIgnoresBody` | src/utils/api.ts:203-213 | for 401, 404, 429 and 500 the message does not depend on the body |
| `ApiErrors.BadRequestMessage` | src/utils/api.ts:210-211 | a 400 reports the body's `message` when truthy, else "Invalid request parameters." |
| `JsValue.IntToStringRoundTrip` | src/utils/api.ts:318 | the decimal text written for a numeric parameter reads back as the same integer |
| `Requests.TradesQuery` | src/utils/api.ts:316-319 | `cursor` is sent iff the cursor is given and non-zero, at most once, with a value that reads back as the cursor |
| `Requests.PnlQueryFlags` | src/utils/api.ts:343-352 | each PnL flag is sent with value "true" iff its option is true, in the order showHistoricPnL, holdingCheck, hideDetails |
| `Requests.ChartQuery` | src/utils/api.ts:392-396 | `type` is always first with the interval or "1h"; `time_from` and `time_to` are present iff given and non-zero, in that order, with values that read back as the inputs |
| `Requests.TopTradersRequest` | src/utils/api.ts:406-433 | four parameters in order with defaults expandPnl false, sortBy total, page 1, timeframe 24h; the path carries the same page |
| `Trending.MapOrThrow` | src/utils/api.ts:239 | mapping keeps length and order, and fails with the first element's error iff some element fails |
| `Trending.ShapePool` | src/utils/api.ts:247-252 | a nullish pool throws a TypeError; otherwise price and market cap default to 0, liquidity is present iff the pool had a truthy one, supply is passed through |
| `Trending.ShapeToken` | src/utils/api.ts:239-261 | name, symbol, mint, decimals, image, events and risk score follow their `\|\|` defaults; pools keep length and order; it throws iff the element is nullish, its pools is a truthy non-array, or a pool is nullish |
| `Trending.ShapeTrending` | src/utils/api.ts:234-261 | a non-array body throws "Invalid response format"; otherwise the output has the input's length and order; it never raises an HTTP error |
| `Trending.TrendingNeverMissing` | src/utils/api.ts:239-252 | every returned token has a truthy name and symbol, and every pool a price and market cap |
| `Client.Attempted` | src/utils/api.ts:222-224 | a refused request throws the HTTP client's error; an accepted reply's body goes to the shape check |
| `Client.Run` | src/utils/api.ts:225-227 | an endpoint succeeds iff its `try` block does; every failure is the normaliser's message for what was thrown |
| `Client.RequireObject` | src/utils/api.ts:285-287 | a body passes iff it is an object or an array (truthy and of type object), and is returned unchanged; otherwise "Invalid response format" is thrown |
| `Client.RequireArrayField` | src/utils/api.ts:323-325 | a body passes iff its named field is an array, and is returned unchanged; otherwise "Invalid response format" is thrown |
| `Client.NoAcceptedStatusReachesHandler` | src/utils/api.ts:28 | no status in 200..499, so none of 401/404/429/400, reaches the normaliser as an HTTP error |
| `Client.LocalFailureIsGeneric` | src/utils/api.ts:264-266 | a failure on an accepted reply surfaces as the generic message |
| `Client.RunFailureMessages` | src/utils/api.ts:191-219 | an endpoint's failure message follows from how the request ended: timeout, network, server error, body message, or generic |
| `Client.FetchTokenInfo` | src/utils/api.ts:221-229 | succeeds iff the reply is accepted, returning its body unchanged |
| `Client.FetchTrendingTokens` | src/utils/api.ts:231-268 | succeeds iff the reply is accepted and its array body shapes; the result lines up with the array; a bad body gives the generic message |
| `Client.NonArrayTrendingIsGeneric` | src/utils/api.ts:234-235 | a non-array trending body surfaces as the generic message, never "Invalid response format" |
| `Client.FetchTokenPrice` | src/utils/api.ts:270-278 | succeeds iff the reply is accepted, returning its body unchanged |
| `Client.FetchWalletInfo` | src/utils/api.ts:280-294 | succeeds iff the accepted body is an object or array, returned unchanged; otherwise the generic message |
| `Client.FetchBasicWalletInfo` | src/utils/api.ts:296-309 | succeeds iff the accepted body is an object or array, returned unchanged; otherwise the generic message |
| `Client.FetchWalletTrades` | src/utils/api.ts:311-332 | succeeds iff the accepted body has a `trades` array; otherwise the generic message |
| `Client.FetchWalletPnL` | src/utils/api.ts:334-365 | succeeds iff the accepted body is an object or array; otherwise the generic message |
| `Client.FetchTokenPnL` | src/utils/api.ts:367-383 | succeeds iff the accepted body is an object or array; otherwise the generic message |
| `Client.FetchTokenChart` | src/utils/api.ts:385-404 | succeeds iff the reply is accepted, returning its body unchanged |
| `Client.FetchTopTraders` | src/utils/api.ts:406-444 | with the fixture enabled it returns the fixture; otherwise succeeds iff the accepted body has a `wallets` array, else the generic message |
| `Client.FetchTokenTopTraders` | src/utils/api.ts:446-454 | succeeds iff the reply is accepted, returning its body unchanged |
| `Client.FetchTokenStats` | src/utils/api.ts:456-465 | succeeds iff the reply is accepted, returning its body unchanged |
| `Client.BadRequestBodyIsReturned` | src/utils/api.ts:221-224 | for every body, a final 400 reply is returned as data, not raised, by each passthrough endpoint (token info, price, chart, holders, stats) |
| `Format.ShortenAddress` | src/utils/format.ts:18-21 | empty iff the input is empty; otherwise the first min(4,\|s\|) characters, "..." at index min(4,\|s\|), the last min(4,\|s\|) characters, length 2·min(\|s\|,4)+3 |
| `Format.ShortenShorterIff` | src/utils/format.ts:20 | the short form is strictly shorter than the address iff the address has more than 11 characters |
| `Format.ShortenDependsOnlyOnEnds` | src/utils/format.ts:20 | two addresses shorten alike iff they agree on emptiness and on their first four and last four characters |
| `Format.FormatAddress` | src/components/TokenModal.tsx:127-129 | six leading characters, "...", four trailing, with no empty-string guard |
| `WalletPage.Base58ClassIsAlphabet` | src/pages/wallet.tsx:9 | the character class admits exactly the 58 letters of the Base58 alphabet |
| `WalletPage.TrimEmptyIffBlank` | src/pages/wallet.tsx:56 | `trim()` yields the empty string iff every character is white space |
| `WalletPage.ValidateWalletAddress` | src/pages/wallet.tsx:55-62 | valid iff the address matches the pattern as typed; blank addresses get the missing-address message, all other refusals the format message |
| `WalletPage.AcceptedAddressShape` | src/pages/wallet.tsx:9 | an accepted address has 32 to 44 characters and contains none of 0, O, I, l |
| `WalletPage.LeadingSpaceRejected` | src/pages/wallet.tsx:59 | a valid address with a leading space is refused with the format message |
| `WalletPage.FetchChecked` | src/pages/wallet.tsx:72-77 | a fetched body with a `tokens` array is returned as fetched; one without is refused with "Invalid response from server"; fetch failures keep their message |
| `WalletPage.HandleSubmit` | src/pages/wallet.tsx:64-84 | the error is cleared first; loading is set only after validation passes and is false at the end; on any failure, of validation or of the checked fetch, the error holds that failure's message and the wallet data is dropped; a successful fetch stores its data with no error |
| `WalletPage.BlankSubmitRejected` | src/pages/wallet.tsx:55-57 | a blank address ends with the missing-address message and no request |
| `WalletPage.MissingTokensRejected` | src/pages/wallet.tsx:73-74 | a body without a `tokens` array ends with "Invalid response from server" and no wallet data |

## Left out

- Real HTTP, the 30 s request timeout, sleeping between retries and the retry library's other options. The network is a parameter; a timeout appears only as the error code it produces.
- The retry library's network-or-idempotent test. It is an opaque boolean per attempt.
- Reading the API key from the environment, the missing-key warning and all console logging. They have no effect on control flow.
- The development fixture's contents. The top traders endpoint takes a boolean that selects the fixture, and the fixture appears as a marker value.
- Query-string serialisation and percent-encoding. A query is kept as its ordered list of key/value pairs. Addresses and timeframes are spliced into paths as given, as in the code.
- Fractional numbers, NaN and -0. JSON numbers are integers. `Number.prototype.toString` is modelled only in decimal notation, without the exponent form used for magnitudes of 10^21 and above.
- Properties that arrays, strings and booleans inherit in JavaScript. None of the keys the client reads is one of them.
- Strings are sequences of Unicode scalar values rather than UTF-16 code units. Slicing and `trim` are modelled on those characters.
- In the submit handler, the fallback "Failed to fetch wallet information" for thrown non-`Error` values. Everything the handler can catch is an `Error`, so the fallback is not modelled.
- React rendering, hooks, timers, clipboard handling and layout. `formatNumber`, and the statistics, ROI and chart arithmetic, which use floating point and locale formatting.
- Requests.PnlQueryFlags: "each flag at most once" is stated through the strict ordering of the flags sent, not as an occurrence count.
