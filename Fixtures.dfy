/**
 * The transformation of the provider's raw fixtures into the `Match` records
 * the view renders (the `response.data.response.map(...)` in src/App.js).
 */
module Fixtures {
  import opened Wrappers

  /** One entry of a fixture's `events`, passed through as it came. */
  datatype Event = Event(eventType: string, detail: string)

  /**
   * The fields of a raw fixture the mapping reads. `None` is a null or missing
   * value; `elapsed` is `fixture.status.elapsed`, `statusLong` is
   * `fixture.status.long`.
   */
  datatype RawFixture = RawFixture(
    id: int,
    homeName: string,
    awayName: string,
    homeGoals: Option<int>,
    awayGoals: Option<int>,
    elapsed: Option<int>,
    leagueName: string,
    statusLong: string,
    events: Option<seq<Event>>)

  /** The `time` shown on a card: the elapsed minute, or the text 'HT'. */
  datatype MatchTime = Minute(minute: int) | HalfTime

  datatype Match = Match(
    id: int,
    homeTeam: string,
    awayTeam: string,
    homeScore: Option<int>,
    awayScore: Option<int>,
    time: MatchTime,
    competition: string,
    status: string,
    events: seq<Event>)

  /**
   * One fixture as a `Match`: `elapsed || 'HT'` makes both a missing elapsed
   * value and an elapsed value of 0 show as 'HT'; `events || []` makes missing
   * events an empty list. Everything else is copied.
   */
  function ToMatch(f: RawFixture): (m: Match)
    ensures m.id == f.id
    ensures m.time == HalfTime <==> f.elapsed == None || f.elapsed == Some(0)
    ensures m.time.Minute? ==> f.elapsed == Some(m.time.minute) && m.time.minute != 0
    ensures m.events == f.events.GetOr([])
    ensures m.homeTeam == f.homeName && m.awayTeam == f.awayName
    ensures m.homeScore == f.homeGoals && m.awayScore == f.awayGoals
    ensures m.competition == f.leagueName && m.status == f.statusLong
  {
    Match(
      f.id, f.homeName, f.awayName, f.homeGoals, f.awayGoals,
      if f.elapsed.Some? && f.elapsed.value != 0 then Minute(f.elapsed.value) else HalfTime,
      f.leagueName, f.statusLong, f.events.GetOr([]))
  }

  /** The whole response: one `Match` per fixture, in the same order. */
  function MapFixtures(fs: seq<RawFixture>): (ms: seq<Match>)
    ensures |ms| == |fs|
    ensures forall i :: 0 <= i < |fs| ==> ms[i] == ToMatch(fs[i])
  {
    if fs == [] then [] else [ToMatch(fs[0])] + MapFixtures(fs[1..])
  }

  /** The mapping keeps the fixtures' ids, in order. */
  lemma MapKeepsIds(fs: seq<RawFixture>)
    ensures |MapFixtures(fs)| == |fs|
    ensures forall i :: 0 <= i < |fs| ==> MapFixtures(fs)[i].id == fs[i].id
  {
  }

  /** Mapping a concatenation maps each part: the mapping treats fixtures one at a time. */
  lemma {:induction false} MapFixturesAppend(a: seq<RawFixture>, b: seq<RawFixture>)
    ensures MapFixtures(a + b) == MapFixtures(a) + MapFixtures(b)
  {
    if a != [] {
      assert (a + b)[1..] == a[1..] + b;
      MapFixturesAppend(a[1..], b);
    }
  }
}
