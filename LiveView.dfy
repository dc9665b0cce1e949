/**
 * The controller of the live-football view (`App` in src/App.js): its state
 * cells and the storage entry as fields of one object, and `fetchMatches`,
 * `cacheMatches`, `loadCachedMatches`, `handleRefresh`, the polling tick and
 * the mount effect as methods on it.
 *
 * `fetchMatches` awaits the HTTP request, so it is modelled as two steps:
 * `BeginFetch` runs up to the request (the rate gate, `loading` and `error`),
 * and `CompleteFetch` runs once the request settles with an `Outcome`.
 * `FetchMatches` is the two steps run back to back.
 */
module LiveView {
  import opened Wrappers
  import opened JsText
  import opened Errors
  import opened RateLimit
  import opened Fixtures
  import opened Cache

  /** A response the client accepted: the two rate-limit headers and the body's `errors` and `response`. */
  datatype Response = Response(
    remainingHeader: Option<string>,
    resetHeader: Option<string>,
    bodyErrors: Option<seq<string>>,
    fixtures: seq<RawFixture>)

  /** How the request settles: with a response, or with the error the client raised. */
  datatype Outcome = Responded(response: Response) | Rejected(error: FetchError)

  /** What a settled request leaves for the view: a mapped list, or a message to show. */
  datatype Resolution = Loaded(matches: seq<Match>) | Failed(message: string)

  /** A response whose body `errors` list is non-empty: `errors?.length > 0`. */
  function HasProviderErrors(r: Response): (b: bool)
    ensures !b <==> r.bodyErrors.None? || r.bodyErrors == Some([])
  {
    r.bodyErrors.Some? && |r.bodyErrors.value| > 0
  }

  /**
   * The settled request as the view sees it. A rejected request and a response
   * with provider errors (thrown as an `Error` carrying the joined list) fail
   * with the categorised message; any other response loads its fixtures.
   */
  function Resolve(o: Outcome): (r: Resolution)
    ensures r.Loaded? <==> o.Responded? && !HasProviderErrors(o.response)
    ensures r.Loaded? ==> |r.matches| == |o.response.fixtures|
    ensures o.Rejected? ==> r == Failed(ErrorMessage(o.error))
  {
    match o
    case Rejected(e) => Failed(ErrorMessage(e))
    case Responded(resp) =>
      if HasProviderErrors(resp) then Failed(ErrorMessage(Thrown(Join(resp.bodyErrors.value, ErrorSeparator))))
      else Loaded(MapFixtures(resp.fixtures))
  }

  /** The rate limit after the request settles: only a response updates it. */
  function NextRateLimit(o: Outcome, rl: RateLimit, now: int): (next: RateLimit)
    ensures o.Rejected? ==> next == rl
    ensures o.Responded? ==> next == ApplyHeaders(o.response.remainingHeader, o.response.resetHeader, now)
    ensures o.Responded? ==> next.remaining != 0 && next.resetTime.Some?
  {
    match o
    case Rejected(_) => rl
    case Responded(resp) => ApplyHeaders(resp.remainingHeader, resp.resetHeader, now)
  }

  /** A response with provider errors fails with the joined list, or the default message for `[""]`. */
  lemma ProviderErrorsFail(resp: Response)
    requires HasProviderErrors(resp)
    ensures Resolve(Responded(resp))
         == Failed(if resp.bodyErrors.value == [""] then DefaultMessage else Join(resp.bodyErrors.value, ErrorSeparator))
  {
    ThrownProviderErrors(resp.bodyErrors.value);
  }

  /** A response with provider errors still updates the rate limit from its headers. */
  lemma ProviderErrorsUpdateRateLimit(resp: Response, rl: RateLimit, now: int)
    requires HasProviderErrors(resp)
    ensures Resolve(Responded(resp)).Failed?
    ensures NextRateLimit(Responded(resp), rl, now) == ApplyHeaders(resp.remainingHeader, resp.resetHeader, now)
  {
  }

  /** A response without provider errors loads its fixtures, mapped one by one in order. */
  lemma ResponseLoadsFixtures(resp: Response, i: int)
    requires !HasProviderErrors(resp) && 0 <= i < |resp.fixtures|
    ensures Resolve(Responded(resp)).Loaded?
    ensures Resolve(Responded(resp)).matches[i] == ToMatch(resp.fixtures[i])
  {
  }

  class App {
    var matches: seq<Match>
    var loading: bool
    var error: Option<string>
    /** The clock reading behind the "Last updated" text; its locale formatting is not modelled. */
    var lastUpdated: Option<int>
    var isManualRefresh: bool
    var rateLimit: RateLimit
    /** The `lastMatches` storage entry; it outlives the view. */
    var stored: Option<CacheEntry>

    /**
     * The budget is never zero: it starts at ten and every response replaces
     * zero by ten. The reset time is null only while the initial state lasts.
     */
    ghost predicate Valid()
      reads this
      ensures Valid() ==> (rateLimit.remaining <= 0 <==> rateLimit.remaining < 0)
    {
      && rateLimit.remaining != 0
      && (rateLimit.resetTime.None? ==> rateLimit == Initial)
    }

    /** A newly mounted view over whatever the storage holds. */
    constructor (storage: Option<CacheEntry>)
      ensures Valid()
      ensures matches == [] && loading && error == None && lastUpdated == None && !isManualRefresh
      ensures rateLimit == Initial && stored == storage
    {
      matches := [];
      loading := true;
      error := None;
      lastUpdated := None;
      isManualRefresh := false;
      rateLimit := Initial;
      stored := storage;
    }

    /** `cacheMatches(data)` at time `now`. */
    method CacheMatches(data: seq<Match>, now: int)
      modifies this`stored
      ensures stored == Save(data, now)
    {
      stored := Some(CacheEntry(data, now));
    }

    /** `loadCachedMatches()` at time `now`: shows the stored list if it is fresh, and says whether it was. */
    method LoadCachedMatches(now: int) returns (loaded: bool)
      modifies this`matches
      ensures loaded == FreshData(stored, now).Some?
      ensures matches == FreshData(stored, now).GetOr(old(matches))
    {
      loaded := false;
      if stored.Some? {
        if now - stored.value.timestamp < FreshnessWindowMs {
          matches := stored.value.data;
          loaded := true;
        }
      }
    }

    /**
     * `fetchMatches` up to the request. With no calls left it only reports how
     * long to wait, and no request is made; otherwise it clears the error and
     * marks the view as loading.
     */
    method BeginFetch(now: int) returns (proceed: bool)
      requires Valid()
      ensures Valid()
      modifies this`loading, this`error
      ensures proceed == CanFetch(rateLimit)
      ensures proceed ==> loading && error == None
      ensures !proceed ==> loading == old(loading) && error == Some(RateLimitedMessage(rateLimit, now))
      ensures !proceed ==> rateLimit.resetTime.Some?
    {
      if !CanFetch(rateLimit) {
        error := Some(RateLimitedMessage(rateLimit, now));
        return false;
      }
      loading := true;
      error := None;
      return true;
    }

    /** The `catch` block: show the message, then the fresh stored list, or nothing. */
    method Recover(message: string, now: int)
      modifies this`error, this`matches
      ensures error == Some(message)
      ensures matches == FreshData(stored, now).GetOr([])
    {
      error := Some(message);
      var loaded := LoadCachedMatches(now);
      if !loaded {
        matches := [];
      }
    }

    /**
     * `fetchMatches` once the request has settled at time `now`. A response
     * updates the rate limit first, even one that carries provider errors.
     * A success shows the mapped list, stores it stamped with `now` and sets
     * the update time; a failure shows its message and falls back to the
     * fresh stored list, or an empty one. Both end the loading state and the
     * manual-refresh mark.
     */
    method CompleteFetch(now: int, outcome: Outcome)
      requires Valid()
      modifies this`matches, this`loading, this`error, this`lastUpdated, this`isManualRefresh
      modifies this`rateLimit, this`stored
      ensures Valid()
      ensures rateLimit == NextRateLimit(outcome, old(rateLimit), now)
      ensures !loading && !isManualRefresh
      ensures Resolve(outcome).Loaded? ==>
        && matches == Resolve(outcome).matches
        && stored == Save(matches, now)
        && lastUpdated == Some(now)
        && error == old(error)
      ensures Resolve(outcome).Failed? ==>
        && error == Some(Resolve(outcome).message)
        && matches == FreshData(old(stored), now).GetOr([])
        && stored == old(stored)
        && lastUpdated == old(lastUpdated)
    {
      match outcome {
        case Rejected(e) =>
          Recover(ErrorMessage(e), now);
        case Responded(resp) =>
          rateLimit := ApplyHeaders(resp.remainingHeader, resp.resetHeader, now);
          if HasProviderErrors(resp) {
            Recover(ErrorMessage(Thrown(Join(resp.bodyErrors.value, ErrorSeparator))), now);
          } else {
            var transformed := MapFixtures(resp.fixtures);
            matches := transformed;
            CacheMatches(transformed, now);
            lastUpdated := Some(now);
          }
      }
      loading := false;
      isManualRefresh := false;
    }

    /**
     * `fetchMatches` as one step, with the request settling at the same time
     * `now` as it starts. When the gate stops it, only the error changes.
     */
    method FetchMatches(now: int, outcome: Outcome)
      requires Valid()
      modifies this
      ensures Valid()
      ensures !CanFetch(old(rateLimit)) ==>
        && error == Some(RateLimitedMessage(old(rateLimit), now))
        && matches == old(matches) && loading == old(loading) && lastUpdated == old(lastUpdated)
        && isManualRefresh == old(isManualRefresh) && rateLimit == old(rateLimit) && stored == old(stored)
      ensures CanFetch(old(rateLimit)) ==>
        && rateLimit == NextRateLimit(outcome, old(rateLimit), now)
        && !loading && !isManualRefresh
        && (Resolve(outcome).Loaded? ==>
              matches == Resolve(outcome).matches && stored == Save(matches, now)
              && lastUpdated == Some(now) && error == None)
        && (Resolve(outcome).Failed? ==>
              error == Some(Resolve(outcome).message) && matches == FreshData(old(stored), now).GetOr([])
              && stored == old(stored) && lastUpdated == old(lastUpdated))
    {
      var proceed := BeginFetch(now);
      if proceed {
        CompleteFetch(now, outcome);
      }
    }

    /** `handleRefresh`: with calls left, mark the refresh as manual and start a fetch. */
    method HandleRefresh(now: int) returns (fetchStarted: bool)
      requires Valid()
      ensures Valid()
      modifies this`isManualRefresh, this`loading, this`error
      ensures fetchStarted == CanFetch(rateLimit)
      ensures fetchStarted ==> isManualRefresh && loading && error == None
      ensures !fetchStarted ==> isManualRefresh == old(isManualRefresh) && loading == old(loading) && error == old(error)
    {
      fetchStarted := false;
      if CanFetch(rateLimit) {
        isManualRefresh := true;
        fetchStarted := BeginFetch(now);
      }
    }

    /** One tick of the 30-second poll: a fetch starts only while more than three calls are left. */
    method PollTick(now: int) returns (fetchStarted: bool)
      requires Valid()
      ensures Valid()
      modifies this`loading, this`error
      ensures fetchStarted == CanAutoFetch(rateLimit)
      ensures fetchStarted ==> loading && error == None
      ensures !fetchStarted ==> loading == old(loading) && error == old(error)
    {
      fetchStarted := false;
      if CanAutoFetch(rateLimit) {
        fetchStarted := BeginFetch(now);
      }
    }

    /**
     * The effect run on mount (and again whenever `rateLimit` changes): show
     * the fresh stored list if there is one, and otherwise start a fetch.
     * Showing the stored list does not end the loading state.
     */
    method MountEffect(now: int) returns (fetchStarted: bool)
      requires Valid()
      ensures Valid()
      modifies this`matches, this`loading, this`error
      ensures FreshData(stored, now).Some? ==>
        && !fetchStarted && matches == FreshData(stored, now).value
        && loading == old(loading) && error == old(error)
      ensures FreshData(stored, now).None? ==>
        && matches == old(matches)
        && fetchStarted == CanFetch(rateLimit)
        && (fetchStarted ==> loading && error == None)
        && (!fetchStarted ==> loading == old(loading) && error == Some(RateLimitedMessage(rateLimit, now)))
    {
      var loaded := LoadCachedMatches(now);
      fetchStarted := false;
      if !loaded {
        fetchStarted := BeginFetch(now);
      }
    }
  }
}
