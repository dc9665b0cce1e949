/**
 * The `lastMatches` storage entry: the last mapped list with the time it was
 * saved, served only within a one-hour freshness window (`cacheMatches` and
 * `loadCachedMatches` in src/App.js).
 */
module Cache {
  import opened Wrappers
  import opened Fixtures

  /** One hour, in milliseconds. */
  const FreshnessWindowMs := 3600000

  datatype CacheEntry = CacheEntry(data: seq<Match>, timestamp: int)

  /** The entry `cacheMatches(data)` writes at time `now`. */
  function Save(data: seq<Match>, now: int): (stored: Option<CacheEntry>)
    ensures stored.Some? && stored.value.data == data && stored.value.timestamp == now
  {
    Some(CacheEntry(data, now))
  }

  /** The data a load at time `now` serves: present only while `now - timestamp` is under an hour. */
  function FreshData(stored: Option<CacheEntry>, now: int): (r: Option<seq<Match>>)
    ensures r.Some? <==> stored.Some? && now - stored.value.timestamp < FreshnessWindowMs
    ensures r.Some? ==> r.value == stored.value.data
  {
    if stored.Some? && now - stored.value.timestamp < FreshnessWindowMs then Some(stored.value.data) else None
  }

  /** A save followed by a load within the hour gives the saved list back unchanged. */
  lemma SaveThenLoad(data: seq<Match>, savedAt: int, now: int)
    requires now - savedAt < FreshnessWindowMs
    ensures FreshData(Save(data, savedAt), now) == Some(data)
  {
  }

  /** A load an hour or more after the save serves nothing. */
  lemma StaleAfterWindow(data: seq<Match>, savedAt: int, now: int)
    requires now >= savedAt + FreshnessWindowMs
    ensures FreshData(Save(data, savedAt), now) == None
  {
  }
}
