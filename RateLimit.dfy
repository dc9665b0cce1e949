/**
 * The rate-limit state the controller keeps (`rateLimit` in src/App.js): how
 * it is read from the response headers, the gates built on it, and the
 * seconds-until-reset shown to the user.
 */
module RateLimit {
  import opened Wrappers
  import opened JsText

  /** The call budget shown before any response, and the fallback for an unusable header. */
  const DefaultRemaining := 10
  /** The reset time assumed when the reset header is unusable: one minute from now. */
  const ResetFallbackMs := 60000
  /** Calls that automatic polling leaves for manual refreshes. */
  const AutoFetchReserve := 3

  /** `remaining` calls left; `resetTime` in epoch milliseconds, null before the first response. */
  datatype RateLimit = RateLimit(remaining: int, resetTime: Option<int>)

  const Initial := RateLimit(DefaultRemaining, None)

  /** `parseInt(headers[name])`: a missing header is `undefined`, which parses to NaN. */
  function ParseHeader(header: Option<string>): (v: Option<int>)
    ensures header.None? ==> v.None?
  {
    match header
    case None => None
    case Some(text) => ParseInt(text)
  }

  /** The budget from `x-ratelimit-remaining`: `parseInt(h) || 10`, so NaN and 0 both give 10. */
  function ParseRemaining(header: Option<string>): (r: int)
    ensures r != 0
    ensures ParseHeader(header).Some? && ParseHeader(header).value != 0 ==> r == ParseHeader(header).value
    ensures ParseHeader(header) !in {None, Some(0)} || r == DefaultRemaining
  {
    match ParseHeader(header)
    case Some(v) => if v != 0 then v else DefaultRemaining
    case None => DefaultRemaining
  }

  /** The reset time from `x-ratelimit-reset` (epoch seconds): `parseInt(h) * 1000 || now + 60000`. */
  function ParseReset(header: Option<string>, now: int): (r: int)
    ensures ParseHeader(header).Some? && ParseHeader(header).value != 0 ==> r == ParseHeader(header).value * 1000
    ensures ParseHeader(header) !in {None, Some(0)} || r == now + ResetFallbackMs
  {
    match ParseHeader(header)
    case Some(v) => if v * 1000 != 0 then v * 1000 else now + ResetFallbackMs
    case None => now + ResetFallbackMs
  }

  /** The state after a response arrived. It always has a reset time, and never a zero budget. */
  function ApplyHeaders(remainingHeader: Option<string>, resetHeader: Option<string>, now: int): (rl: RateLimit)
    ensures rl.remaining != 0
    ensures rl.resetTime.Some?
  {
    RateLimit(ParseRemaining(remainingHeader), Some(ParseReset(resetHeader, now)))
  }

  /** The hard gate in front of every fetch, and the gate of the manual refresh. */
  function CanFetch(rl: RateLimit): (b: bool)
    ensures b == !(rl.remaining <= 0)
  {
    rl.remaining > 0
  }

  /** The gate of automatic polling, which keeps a reserve of calls. */
  function CanAutoFetch(rl: RateLimit): (b: bool)
    ensures b ==> CanFetch(rl)
    ensures b <==> rl.remaining > AutoFetchReserve
  {
    rl.remaining > AutoFetchReserve
  }

  /** Whether the refresh button is enabled. */
  function RefreshEnabled(loading: bool, rl: RateLimit): (b: bool)
    ensures b <==> !loading && CanFetch(rl)
  {
    !(loading || rl.remaining <= 0)
  }

  /** `Math.ceil(ms / 1000)` for an integral `ms`. */
  function CeilSeconds(ms: int): (s: int)
    ensures (s - 1) * 1000 < ms <= s * 1000
  {
    -((-ms) / 1000)
  }

  /** `Math.ceil((resetTime - now) / 1000)`; a null `resetTime` counts as 0, as subtraction makes it. */
  function SecondsUntilReset(rl: RateLimit, now: int): (s: int)
    ensures (s - 1) * 1000 < rl.resetTime.GetOr(0) - now <= s * 1000
  {
    CeilSeconds(rl.resetTime.GetOr(0) - now)
  }

  const RateLimitedPrefix := "Rate limited! Try again in "

  /** The error the hard gate reports instead of fetching. */
  function RateLimitedMessage(rl: RateLimit, now: int): (m: string)
    ensures |m| > |RateLimitedPrefix| && m[..|RateLimitedPrefix|] == RateLimitedPrefix && m[|m| - 1] == 's'
  {
    RateLimitedPrefix + IntToString(SecondsUntilReset(rl, now)) + "s"
  }

  /**
   * The "Resets in" indicator: shown only when the reset time is set and not
   * zero, and then the seconds left, never negative.
   */
  function Countdown(rl: RateLimit, now: int): (c: Option<nat>)
    ensures c.Some? <==> rl.resetTime.Some? && rl.resetTime.value != 0
    ensures c.Some? ==> (c.value == 0 <==> rl.resetTime.value <= now)
    ensures c.Some? && c.value > 0 ==> (c.value - 1) * 1000 < rl.resetTime.value - now <= c.value * 1000
  {
    if rl.resetTime.Some? && rl.resetTime.value != 0 then
      var s := SecondsUntilReset(rl, now);
      Some(if s > 0 then s else 0)
    else None
  }

  /** A remaining header carrying an integer gives that budget, or 10 for 0. */
  lemma RemainingRoundTrip(remaining: int)
    ensures ParseRemaining(Some(IntToString(remaining))) == if remaining != 0 then remaining else DefaultRemaining
  {
    IntToStringRoundTrip(remaining);
    assert ParseHeader(Some(IntToString(remaining))) == Some(remaining);
  }

  /** A reset header carrying an integer number of seconds gives those milliseconds, or the fallback for 0. */
  lemma ResetRoundTrip(resetSeconds: int, now: int)
    ensures ParseReset(Some(IntToString(resetSeconds)), now)
         == if resetSeconds != 0 then resetSeconds * 1000 else now + ResetFallbackMs
  {
    IntToStringRoundTrip(resetSeconds);
    assert ParseHeader(Some(IntToString(resetSeconds))) == Some(resetSeconds);
  }

  /** Headers that carry integers are read back as those integers, with 0 replaced by the fallbacks. */
  lemma HeadersRoundTrip(remaining: int, resetSeconds: int, now: int)
    ensures ApplyHeaders(Some(IntToString(remaining)), Some(IntToString(resetSeconds)), now)
         == RateLimit(if remaining != 0 then remaining else DefaultRemaining,
                      Some(if resetSeconds != 0 then resetSeconds * 1000 else now + ResetFallbackMs))
  {
    RemainingRoundTrip(remaining);
    ResetRoundTrip(resetSeconds, now);
  }

  /** Missing or unparseable headers give ten calls and a reset one minute from now. */
  lemma UnusableHeadersDefault(remainingHeader: Option<string>, resetHeader: Option<string>, now: int)
    requires ParseHeader(remainingHeader).None? && ParseHeader(resetHeader).None?
    ensures ApplyHeaders(remainingHeader, resetHeader, now) == RateLimit(DefaultRemaining, Some(now + ResetFallbackMs))
  {
  }

  /**
   * A response that reports no calls left resets the budget to ten, so
   * neither the hard gate nor the polling gate stops the next fetch.
   */
  lemma ExhaustedHeaderDoesNotBlock(resetHeader: Option<string>, now: int)
    ensures ApplyHeaders(Some("0"), resetHeader, now).remaining == DefaultRemaining
    ensures CanFetch(ApplyHeaders(Some("0"), resetHeader, now))
    ensures CanAutoFetch(ApplyHeaders(Some("0"), resetHeader, now))
  {
    IntToStringRoundTrip(0);
  }

  /** The gate message carries the seconds until reset, readable back from the text after its prefix. */
  lemma RateLimitedMessageCarriesSeconds(rl: RateLimit, now: int)
    ensures RateLimitedMessage(rl, now)[..|RateLimitedPrefix|] == RateLimitedPrefix
    ensures ParseInt(RateLimitedMessage(rl, now)[|RateLimitedPrefix|..]) == Some(SecondsUntilReset(rl, now))
  {
    var n := SecondsUntilReset(rl, now);
    assert RateLimitedMessage(rl, now)[|RateLimitedPrefix|..] == IntToString(n) + "s";
    ParseIntOfIntToString(n, "s");
  }
}
