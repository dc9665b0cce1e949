# Live football view: controller model

A Dafny model of the controller behind the live-football page of LiveSportsSite
(`App` in `src/App.js`). Once the clock, the browser storage and the outcome of
the HTTP request are treated as inputs, the controller is a small
deterministic state machine:

- **Error messages** (`Errors`): `getErrorMessage` over an explicit error
  shape (the rejected response with its status and body `errors`, whether a
  request was sent, the error's `message`).
- **Rate limit** (`RateLimit`): the header defaults `parseInt(h) || 10` and
  `parseInt(h) * 1000 || now + 60000`, the hard gate of `fetchMatches`, the
  manual-refresh gate, the three-call reserve of automatic polling, the
  "Try again in Ns" message and the clamped "Resets in" countdown.
- **Fixture mapping** (`Fixtures`): raw fixtures to `Match` records, with
  `elapsed || 'HT'` and `events || []`.
- **Cache** (`Cache`): the `lastMatches` entry, written as (data, now) and
  served only while `now - timestamp < 3600000`.
- **Controller** (`LiveView.App`): a class whose fields are the state cells
  `matches`, `loading`, `error`, `lastUpdated`, `isManualRefresh`, `rateLimit`
  and the storage entry. `fetchMatches` awaits its request, so it is split at
  that point: `BeginFetch` (gate, `loading := true`, `error := null`) and
  `CompleteFetch(now, outcome)` (rate-limit update, success or failure branch,
  the `finally` block). `FetchMatches` runs both back to back. `HandleRefresh`,
  `PollTick` and `MountEffect` start a fetch; its outcome is later delivered
  with `CompleteFetch`.
- **Text builtins** (`JsText`): `parseInt` with no radix (white space, sign,
  `0x` prefix, longest digit run, NaN as `None`), the decimal text of an
  integer, and `Array.prototype.join`. The controller's behaviour on the
  headers and in its messages depends on these exactly.
- `Scenarios`: client methods whose assertions follow from the contracts alone. They cover a first
  load, a network failure served from a fresh stored list, a 403 with nothing
  stored, and a fetch stopped by the rate gate.

Behaviour the model makes explicit:

- `App.Valid()` holds throughout: the budget `remaining` is never 0. It starts
  at 10 and every response replaces a zero header by 10
  (`RateLimit.ExhaustedHeaderDoesNotBlock`). So the hard gate
  `remaining <= 0` only stops a fetch after a response reported a negative
  budget.
- A response whose body carries provider errors still updates the rate limit,
  because that update comes before the errors check.
- A 429 or 403 response ignores the body's `errors`. A rejected response (a
  429, say) goes straight to the `catch` block, which never reads its
  headers, so the rate limit stays as it was: a 429's own `x-ratelimit-*`
  headers are ignored.
- The error text is empty exactly when a rejected response with another status
  carries an `errors` array that is `[]` or `[""]`
  (`Errors.ErrorMessage`). A thrown provider-error list of `[""]` shows the
  default message instead.
- Loading a fresh stored list on mount does not end `loading`.

Behaviour worth knowing:

- The 429 message is the fixed "Too many requests! Please wait 1 minute before
  refreshing." It carries no seconds count. Only the rate gate's own message
  ("Rate limited! Try again in Ns") does.
- The header defaults apply to a parsed value of 0 as well as to a missing or
  unparseable header.
- `remaining` becomes negative when the remaining header is a negative integer.
  Once it is, nothing raises it again: every path to a request passes the
  gate at src/App.js:62, and only a response's headers change the rate limit.
  The view stays blocked after `resetTime` has passed, and the gate's message
  then counts negative seconds: for reset 5000 at now 7000 it reads
  "Rate limited! Try again in -2s" (`Scenarios.RateGateStopsFetch` holds
  for any later time).
- `cacheMatches` runs inside the `try` (src/App.js:102), so a storage write
  failure lands in the `catch`. There the banner shows that exception's
  message, the list just mapped is replaced by the fresh stored list or `[]`,
  and `lastUpdated` stays as it was. A `JSON.parse` failure of the stored
  entry is not caught: it escapes from the `catch` block (src/App.js:109) or
  from the mount effect (src/App.js:121).
- `handleRefresh` checks only `remaining > 0`. The in-flight guard is the
  button's `disabled` state (`RateLimit.RefreshEnabled`).

## Model

| member | source | states |
|---|---|---|
| JsText.ParseIntOfIntToString | src/App.js:80-81 | `parseInt` of an integer's decimal text followed by text that ends the number (nothing, or no digit and no `x`) gives back that integer |
| JsText.ParseInt | src/App.js:80-81 | `parseInt` with no radix: a number needs a non-blank text, and a negative one needs a leading minus after the white space |
| JsText.ParseSigned | src/App.js:80-81 | after the white space, a number needs text, and a negative one comes only from a leading minus |
| JsText.IntToString | src/App.js:64 | the text of an integer is non-empty, starts with a minus exactly for negatives, and is digits after that |
| JsText.Join | src/App.js:30 | `join` of nothing is "", the result starts with the first part, and with two or more parts it holds at least the first part and a separator |
| JsText.IntToStringRoundTrip | src/App.js:80-81 | `parseInt` inverts the decimal text of every integer, negative ones and 0 included |
| JsText.JoinEmptyIff | src/App.js:30 | joining with a non-empty separator gives "" exactly for `[]` and `[""]` |
| Errors.Thrown | src/App.js:86 | an error the controller throws has no response, no request and the given message |
| Errors.OrDefault | src/App.js:35 | falling back to the default message, the result is never empty and keeps a non-empty message |
| Errors.ErrorMessage | src/App.js:25-36 | the message is empty exactly for a rejected response with another status than 429/403 whose `errors` is `[]` or `[""]`; the four lemmas below give each case's text |
| Errors.StatusDecidesFirst | src/App.js:26-28 | status 429 gives the rate-limit message and 403 the invalid-key message, whatever the body, request and message |
| Errors.BodyErrorsJoined | src/App.js:29-31 | any other status with a body `errors` array gives those errors joined with ", " |
| Errors.NoResponseIsNetwork | src/App.js:32-33 | no response but a sent request gives the network message |
| Errors.FallbackToMessage | src/App.js:35 | a rejected response with another status and no `errors`, or an error with neither response nor request, shows its message, or the default message when that is empty |
| Errors.ThrownProviderErrors | src/App.js:85-87 | a thrown non-empty provider list shows the joined list, or the default message when the list is `[""]` |
| RateLimit.ParseRemaining | src/App.js:80 | the budget is the parsed header when that is a non-zero integer, else 10; it is never 0 |
| RateLimit.ParseHeader | src/App.js:80-81 | a missing header (`undefined`) parses to NaN |
| RateLimit.ParseReset | src/App.js:81 | the reset time is the parsed header × 1000 when that is non-zero, else now + 60000 |
| RateLimit.ApplyHeaders | src/App.js:79-82 | after a response the budget is non-zero and the reset time is set |
| RateLimit.HeadersRoundTrip | src/App.js:79-82 | integer headers n and m give budget n (10 for 0) and reset m × 1000 (now + 60000 for 0) |
| RateLimit.RemainingRoundTrip | src/App.js:80 | a remaining header carrying integer n gives budget n, or 10 for 0 |
| RateLimit.ResetRoundTrip | src/App.js:81 | a reset header carrying integer m gives m × 1000, or now + 60000 for 0 |
| RateLimit.UnusableHeadersDefault | src/App.js:79-82 | missing or unparseable headers give budget 10 and reset now + 60000 |
| RateLimit.ExhaustedHeaderDoesNotBlock | src/App.js:80 | a header of "0" gives budget 10, so both the hard gate and the polling gate let the next fetch through |
| RateLimit.CanAutoFetch | src/App.js:126 | polling fetches exactly when more than 3 calls are left, and then the hard gate passes too |
| RateLimit.CanFetch | src/App.js:62 | the refresh gate (`remaining > 0`, line 135) holds exactly when the hard gate `remaining <= 0` does not stop the fetch |
| RateLimit.RefreshEnabled | src/App.js:155 | the refresh button is enabled exactly when not loading and the hard gate passes |
| RateLimit.CeilSeconds | src/App.js:63 | the result is the ceiling of ms / 1000: (s − 1) × 1000 < ms ≤ s × 1000 |
| RateLimit.SecondsUntilReset | src/App.js:63 | the ceiling of (resetTime − now) / 1000 seconds, a null reset time counting as 0 |
| RateLimit.RateLimitedMessageCarriesSeconds | src/App.js:63-64 | the gate message starts "Rate limited! Try again in " and the seconds until reset read back from the rest |
| RateLimit.RateLimitedMessage | src/App.js:64 | the gate message starts "Rate limited! Try again in " and ends with "s" |
| RateLimit.Countdown | src/App.js:148-149 | shown exactly when the reset time is set and non-zero; never negative; 0 exactly when the reset time has passed; otherwise the ceiling of the seconds left |
| Fixtures.ToMatch | src/App.js:89-99 | `id` and the other fields are copied; `time` is 'HT' exactly when elapsed is missing, null or 0, else that minute; missing events give [] |
| Fixtures.MapFixtures | src/App.js:89 | one `Match` per fixture, same length and order, the i-th being ToMatch of the i-th fixture |
| Fixtures.MapKeepsIds | src/App.js:89-90 | the ids of the mapped list are the fixtures' ids, in order |
| Fixtures.MapFixturesAppend | src/App.js:89 | mapping a concatenation concatenates the mappings |
| Cache.Save | src/App.js:39-44 | the entry written holds the data and the time of the save |
| Cache.FreshData | src/App.js:47-57 | a load serves the stored data exactly when an entry exists and now − timestamp < 3600000 |
| Cache.SaveThenLoad | src/App.js:39-57 | a load within the hour after a save returns the saved list unchanged |
| Cache.StaleAfterWindow | src/App.js:51 | a load an hour or more after the save serves nothing |
| LiveView.Resolve | src/App.js:85-105 | a settled request loads exactly when it is a response without provider errors, and then one match per fixture; a rejection fails with its categorised message |
| LiveView.NextRateLimit | src/App.js:79-82 | a rejection keeps the rate limit; a response sets the state its headers give at `now`, with a non-zero budget and a reset time |
| LiveView.ProviderErrorsFail | src/App.js:85-87 | a response with provider errors fails with the joined list (default message for `[""]`) |
| LiveView.HasProviderErrors | src/App.js:85 | `errors?.length > 0` is false exactly when `errors` is missing or empty |
| LiveView.ProviderErrorsUpdateRateLimit | src/App.js:79-87 | a response with provider errors fails and still updates the rate limit from its headers |
| LiveView.ResponseLoadsFixtures | src/App.js:89-101 | a response without provider errors loads its fixtures, the i-th match mapped from the i-th fixture |
| LiveView.App.Valid | src/App.js:19-22 | the invariant implies that a non-positive budget is a negative one, so the hard gate stops a fetch only after a negative header |
| LiveView.App.constructor | src/App.js:14-22 | the initial state: no matches, loading, no error, no update time, not manual, budget 10 with null reset; storage as found |
| LiveView.App.CacheMatches | src/App.js:39-44 | the storage entry becomes (data, now) |
| LiveView.App.LoadCachedMatches | src/App.js:47-57 | returns whether the entry is fresh; if so `matches` becomes its data, else `matches` is unchanged |
| LiveView.App.BeginFetch | src/App.js:60-69 | proceeds exactly when the budget is positive, then loading with no error; otherwise only `error` changes, to the rate-gate message with the seconds until reset |
| LiveView.App.Recover | src/App.js:104-111 | the error shows the message and `matches` becomes the fresh stored data, or [] |
| LiveView.App.CompleteFetch | src/App.js:71-115 | the rate limit follows the outcome; success sets matches, storage (stamped now) and update time; failure sets the message and the fallback list and keeps storage; both end loading and the manual mark; the budget stays non-zero |
| LiveView.App.FetchMatches | src/App.js:60-116 | a stopped fetch changes only `error`; otherwise the state after CompleteFetch, with `error` cleared on success |
| LiveView.App.HandleRefresh | src/App.js:134-139 | a fetch starts, marked manual, exactly when the budget is positive; otherwise nothing changes |
| LiveView.App.PollTick | src/App.js:125-129 | a fetch starts exactly when more than 3 calls are left; otherwise nothing changes |
| LiveView.App.MountEffect | src/App.js:119-123 | a fresh stored list is shown and no fetch starts (loading is left as it was); otherwise a fetch is begun through the gate |

## Left out

- The request itself (src/App.js:72-76): the axios GET, its URL, the API-key header and the environment variable are I/O. They are replaced by the `Outcome` argument of `CompleteFetch`.
- Timers and interleaving (src/App.js:119-132): `setInterval`/`clearInterval`, re-running the effect whenever `rateLimit` changes, and overlapping in-flight fetches are scheduling. The model exposes one tick (`PollTick`), one effect run (`MountEffect`) and the two halves of a fetch; callers decide their order. Because the effect re-runs after every response, a provider-error response with no fresh stored list makes the source refetch at once; that ordering is not modelled.
- JSON and storage errors (src/App.js:40, 50): the entry is a typed field. Serialising it is treated as the identity, and quota or parse exceptions are not modelled.
- `toLocaleTimeString` (src/App.js:103): `lastUpdated` holds the clock reading, not its formatted text.
- `console.error` (src/App.js:106).
- Rendering (src/App.js:141-230) other than the countdown and the refresh gate: layout, skeleton and empty states, the 'wait' warning styling and the goal/card tallies.
- Number precision: headers and times are unbounded integers. Rounding of values above 2^53, and `* 1000` done in floating point, are not modelled, and neither is the sign of a zero.
- Malformed responses: a provider `errors` field that is not an array makes `getErrorMessage` raise a TypeError of its own. A body without a `response` array, or a fixture missing a nested field, makes the map raise a TypeError, which the catch block would show by its message. The model's datatypes admit only well-formed shapes.
- src/index.js is framework bootstrap (the root render, an error boundary, web-vitals reporting) and is not part of this model.
