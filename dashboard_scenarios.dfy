/**
 * Whole sessions driven through the `WeatherDashboard` object, each ending
 * in the state the dashboard's design promises for it.
 */
module DashboardScenarios {
  import opened Wrappers
  import opened Text
  import opened Payload
  import opened FetchErrors
  import opened Dashboard

  /** An input of two or more characters with no whitespace at either end schedules a lookup. */
  lemma LongInputSchedules(q: string)
    requires |q| >= 2 && !IsWhitespace(q[0]) && !IsWhitespace(q[|q| - 1])
    ensures SchedulesLookup(q) && !IsBlank(q)
  {
    TrimKeeps(q);
  }

  // The lookup test on each literal typed below, one lemma per literal.

  lemma TypedA() ensures !SchedulesLookup("a") { TrimKeeps("a"); }
  lemma TypedAt() ensures SchedulesLookup("at") && !IsBlank("at") { LongInputSchedules("at"); }
  lemma TypedAtl() ensures SchedulesLookup("atl") && !IsBlank("atl") { LongInputSchedules("atl"); }
  lemma TypedParis() ensures SchedulesLookup("Paris") && !IsBlank("Paris") { LongInputSchedules("Paris"); }

  /** Typing "a", "at", "atl" before the timer fires: one lookup, for "atl". */
  method TypingBurst(found: seq<Place>) returns (settled: DashboardState, after: DashboardState)
    ensures settled.searchQuery == "atl" && settled.pendingLookup == Some("atl") && settled.requests == []
    ensures |after.requests| == 1 && after.requests[0] == PlaceSearch("atl") && after.suggestions == found
    ensures after.showSuggestions && after.pendingLookup.None?
  {
    var d := new WeatherDashboard("key");
    TypedA();
    TypedAt();
    TypedAtl();
    d.SetSearchQuery("a");
    d.SetSearchQuery("at");
    d.SetSearchQuery("atl");
    settled := d.State();
    d.DebounceTimerFires(Ok(found));
    after := d.State();
  }

  /** A one-character input clears and hides the list at once and schedules nothing. */
  method ShortInputClears(found: seq<Place>) returns (s: DashboardState)
    ensures s.searchQuery == "a" && s.pendingLookup.None?
    ensures s.suggestions == [] && !s.showSuggestions
    ensures |s.requests| == 1 && s.requests[0] == PlaceSearch("at")
  {
    var d := new WeatherDashboard("key");
    TypedA();
    TypedAt();
    d.SetSearchQuery("at");
    d.DebounceTimerFires(Ok(found));
    d.SetSearchQuery("a");
    s := d.State();
  }

  /** Fresh session, geolocation denied, key present, London answered: London's weather shows. */
  method DeniedGeolocation(c: CurrentConditions, f: Forecast) returns (s: DashboardState)
    ensures !s.loading && s.error.None? && s.location == "London"
    ensures s.weather == Some(Snapshot(c, f))
    ensures |s.requests| == 2 && s.requests[0] == CurrentRequest("London") && s.requests[1] == ForecastRequest("London")
  {
    var d := new WeatherDashboard("key");
    d.InitialLocation(PositionError, Failed(Other), Ok(c), Ok(f));
    s := d.State();
  }

  /** Without a key, mount, typing, a fired timer and a search issue no request at all. */
  method NoKeySession(c: CurrentConditions, f: Forecast, found: seq<Place>) returns (s: DashboardState)
    ensures s.requests == []
    ensures s.error == Some(MissingKeyText) && !s.loading && s.weather.None?
  {
    var d := new WeatherDashboard("");
    TypedParis();
    d.InitialLocation(Position(51.5, -0.12), Ok(found), Ok(c), Ok(f));
    d.SetSearchQuery("Paris");
    d.DebounceTimerFires(Ok(found));
    d.HandleSearch(Ok(c), Ok(f));
    s := d.State();
  }
}
