/**
 * Call sequences on the controller whose assertions follow from its contracts alone: a first
 * load, a failure served from the stored list, a failure with nothing stored,
 * and a fetch stopped by the rate gate.
 */
module Scenarios {
  import opened Wrappers
  import opened JsText
  import opened Errors
  import opened RateLimit
  import opened Fixtures
  import opened Cache
  import opened LiveView

  /** First load with nothing stored and a response carrying two fixtures and no rate-limit headers. */
  method FirstLoad(f1: RawFixture, f2: RawFixture, now: int)
  {
    var view := new App(None);
    var started := view.MountEffect(now);
    assert started && view.loading && view.error == None;
    var resp := Response(None, None, None, [f1, f2]);
    var mapped := MapFixtures([f1, f2]);
    assert Resolve(Responded(resp)) == Loaded(mapped);
    view.CompleteFetch(now, Responded(resp));
    assert !view.loading && !view.isManualRefresh && view.error == None;
    assert view.matches == mapped && |mapped| == 2;
    assert mapped[0].id == f1.id && mapped[1].id == f2.id;
    assert view.stored == Save(mapped, now);
    assert view.rateLimit == RateLimit(DefaultRemaining, Some(now + ResetFallbackMs));
  }

  /** A poll that fails with a network error while a fresh list of one match is stored. */
  method NetworkFailureServesStoredList(m: Match, savedAt: int, now: int)
    requires savedAt <= now < savedAt + FreshnessWindowMs
  {
    var view := new App(Save([m], savedAt));
    var started := view.MountEffect(now);
    assert !started && view.matches == [m];
    started := view.PollTick(now);
    assert started;
    view.CompleteFetch(now, Rejected(FetchError(None, true, "Network Error")));
    assert view.matches == [m] && view.error == Some(NetworkMessage) && !view.loading;
  }

  /** A rejected fetch with nothing stored empties the list and shows the message. */
  method FailureWithNothingStored(now: int, body: Option<seq<string>>)
  {
    var view := new App(None);
    var started := view.MountEffect(now);
    assert started;
    view.CompleteFetch(now, Rejected(FetchError(Some(ErrorResponse(403, body)), true, "")));
    assert view.matches == [] && view.error == Some(InvalidKeyMessage) && !view.loading;
  }

  /** A first load whose response reports minus one call left, resetting five seconds after the epoch. */
  method LoadExhausted(now: int) returns (view: App)
    ensures fresh(view) && view.Valid()
    ensures view.rateLimit == RateLimit(-1, Some(5000))
    ensures view.matches == [] && view.stored == Save([], now)
  {
    view := new App(None);
    var started := view.MountEffect(now);
    HeadersRoundTrip(-1, 5, now);
    var resp := Response(Some(IntToString(-1)), Some(IntToString(5)), None, []);
    assert Resolve(Responded(resp)) == Loaded([]);
    view.CompleteFetch(now, Responded(resp));
  }

  /** With minus one call left every gate is closed, and a fetch makes no request. */
  method RateGateStopsFetch(now: int, later: int, outcome: Outcome)
  {
    var view := LoadExhausted(now);
    var started := view.PollTick(later);
    assert !started;
    started := view.HandleRefresh(later);
    assert !started;
    view.FetchMatches(later, outcome);
    assert view.matches == [] && view.stored == Save([], now);
    assert view.error == Some(RateLimitedMessage(RateLimit(-1, Some(5000)), later));
    RateLimitedMessageCarriesSeconds(view.rateLimit, later);
    assert view.error.value[..|RateLimitedPrefix|] == RateLimitedPrefix;
    // The reset time passing does not reopen the gate: two seconds after it
    // the message counts -2 seconds.
    assert SecondsUntilReset(view.rateLimit, 7000) == -2;
  }
}
