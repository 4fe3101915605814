/**
 * Properties of the dashboard transitions: what a fetch does on each path,
 * the debounce contract, search and selection, the mount effect, and which
 * panel the user sees.
 */
module DashboardProperties {
  import opened Wrappers
  import opened Text
  import opened Payload
  import opened FetchErrors
  import opened Dashboard
  import LoadingWeather

  // ---------------------------------------------------------------------
  // fetchWeatherData

  /** Without a key: the missing-key error, not loading, and nothing else touched, not even a request. */
  lemma FetchWithoutKey(s: DashboardState, query: string,
                        current: Response<CurrentConditions>, forecast: Response<Forecast>)
    ensures Fetched(s, false, query, current, forecast)
         == s.(loading := false, error := Some(MissingKeyText))
  {
  }

  /** Both calls succeed: the pair becomes `weather`, the query becomes `location`, no error. */
  lemma FetchSucceeds(s: DashboardState, query: string, c: CurrentConditions, f: Forecast)
    ensures Fetched(s, true, query, Ok(c), Ok(f))
         == s.(weather := Some(Snapshot(c, f)), location := query, error := None, loading := false,
               requests := s.requests + [CurrentRequest(query), ForecastRequest(query)])
  {
  }

  /**
   * A call fails: the first failure is classified into `error`, the old
   * weather and location stay, and a failed current-conditions call means
   * the forecast is never requested.
   */
  lemma FetchFails(s: DashboardState, query: string,
                   current: Response<CurrentConditions>, forecast: Response<Forecast>)
    requires current.Failed? || forecast.Failed?
    ensures var t := Fetched(s, true, query, current, forecast);
      var first := if current.Failed? then current.failure else forecast.failure;
      && t.error == Some(Message(Classify(first, query)))
      && t.weather == s.weather && t.location == s.location && !t.loading
      && t.requests == s.requests + (if current.Failed? then [CurrentRequest(query)]
                                     else [CurrentRequest(query), ForecastRequest(query)])
      && t.searchQuery == s.searchQuery && t.suggestions == s.suggestions
      && t.showSuggestions == s.showSuggestions && t.pendingLookup == s.pendingLookup
  {
  }

  /** `finally`: every fetch ends with loading off, and ends with either new weather or an error. */
  lemma FetchSettles(s: DashboardState, hasKey: bool, query: string,
                     current: Response<CurrentConditions>, forecast: Response<Forecast>)
    ensures var t := Fetched(s, hasKey, query, current, forecast);
      !t.loading && (t.error.None? <==> (hasKey && current.Ok? && forecast.Ok?))
  {
  }

  /** A 404 for "Atlantis" reports that location by name. */
  lemma NotFoundAtlantis(s: DashboardState, message: Option<string>, forecast: Response<Forecast>)
    ensures var error := Fetched(s, true, "Atlantis", Failed(HttpError(404, message)), forecast).error;
      error.Some? && Parse(error.value) == Some(NotFound("Atlantis"))
  {
    ParseMessage(NotFound("Atlantis"));
  }

  // ---------------------------------------------------------------------
  // fetchSuggestions and the debounce

  /**
   * Without a key, nothing; a failed search leaves the component state as it
   * was; a result replaces the list and opens the dropdown for a non-blank query.
   */
  lemma SuggestionsOutcome(s: DashboardState, hasKey: bool, query: string, outcome: Response<seq<Place>>)
    ensures var t := SuggestionsFetched(s, hasKey, query, outcome);
      && (!hasKey ==> t == s)
      && (hasKey && outcome.Failed? ==> t == s.(requests := s.requests + [PlaceSearch(query)]))
      && (hasKey && outcome.Ok? ==>
            && t.suggestions == outcome.body
            && t.showSuggestions == (s.showSuggestions || !IsBlank(query))
            && t.requests == s.requests + [PlaceSearch(query)]
            && t.(suggestions := s.suggestions, showSuggestions := s.showSuggestions, requests := s.requests) == s)
  {
  }

  /** A change of input either schedules a lookup of the untrimmed input or clears and hides the list. */
  lemma QueryChangeEffect(s: DashboardState, q: string)
    requires q != s.searchQuery
    ensures var t := QueryChanged(s, q);
      && t.searchQuery == q
      && (SchedulesLookup(q) ==> t == s.(searchQuery := q, pendingLookup := Some(q)))
      && (!SchedulesLookup(q) ==>
            t == s.(searchQuery := q, pendingLookup := None, suggestions := [], showSuggestions := false))
  {
  }

  /** Typing the inputs `qs` in order, with no timer firing in between. */
  function Typed(s: DashboardState, qs: seq<string>): DashboardState
    decreases |qs|
  {
    if qs == [] then s else QueryChanged(Typed(s, qs[..|qs| - 1]), qs[|qs| - 1])
  }

  /**
   * After a burst of typing, at most one lookup is pending and it is for the
   * final input; it is pending whenever that input is long enough and
   * differs from where the burst started.
   */
  lemma {:induction false} TypingLeavesOnlyFinalLookup(s: DashboardState, hasKey: bool, qs: seq<string>)
    requires Invariant(s, hasKey)
    requires qs != []
    ensures var t := Typed(s, qs);
      && Invariant(t, hasKey)
      && t.searchQuery == qs[|qs| - 1]
      && (t.pendingLookup.Some? ==> t.pendingLookup.value == qs[|qs| - 1])
      && (qs[|qs| - 1] != s.searchQuery && SchedulesLookup(qs[|qs| - 1]) ==> t.pendingLookup == Some(qs[|qs| - 1]))
      && t.requests == s.requests
    decreases |qs|
  {
    var init := qs[..|qs| - 1];
    var last := qs[|qs| - 1];
    var prev := Typed(s, init);
    assert Typed(s, qs) == QueryChanged(prev, last);
    if init == [] {
      assert prev == s;
      QueryChangedInvariant(s, hasKey, last);
    } else {
      TypingLeavesOnlyFinalLookup(s, hasKey, init);
      QueryChangedInvariant(prev, hasKey, last);
      if last == prev.searchQuery {
        assert init[|init| - 1] == last;
      }
    }
  }

  /** A long-enough input is one with at least two UTF-16 code units once trimmed. */
  lemma SchedulesLookupByLength(q: string)
    ensures SchedulesLookup(q) <==>
      (|Trim(q)| >= 2 || (|Trim(q)| == 1 && Trim(q)[0] as int > 0xFFFF))
  {
    var t := Trim(q);
    if |t| == 1 {
      assert t[1..] == [];
    }
  }

  // ---------------------------------------------------------------------
  // handleSearch and suggestion selection

  /** A blank input does nothing; otherwise the input is fetched exactly as typed, and the list closes. */
  lemma SearchFetchesInputAsTyped(s: DashboardState, hasKey: bool,
                                  current: Response<CurrentConditions>, forecast: Response<Forecast>)
    ensures IsBlank(s.searchQuery) ==> Searched(s, hasKey, current, forecast) == s
    ensures !IsBlank(s.searchQuery) ==>
      var t := Searched(s, hasKey, current, forecast);
      && t.suggestions == [] && !t.showSuggestions
      && (hasKey ==> t.requests[|s.requests|] == CurrentRequest(s.searchQuery))
      && (hasKey && current.Ok? && forecast.Ok? ==> t.location == s.searchQuery)
  {
  }

  /** The search box holding " Paris" fetches " Paris", leading space included. */
  lemma SearchDoesNotTrim(s: DashboardState, c: CurrentConditions, f: Forecast)
    requires s.searchQuery == " Paris"
    ensures Searched(s, true, Ok(c), Ok(f)).location == " Paris"
  {
    assert Trim(" Paris") != [] by { assert !IsWhitespace(" Paris"[1]); }
  }

  /** The display text: the name, the state segment only when the state is truthy, then the country. */
  lemma DisplayNameShape(p: Place)
    ensures var d := DisplayName(p);
      && d[..|p.name|] == p.name
      && d[|d| - |p.country| - 2..] == ", " + p.country
      && (HasState(p) ==> d == p.name + ", " + p.state.value + ", " + p.country)
      && (!HasState(p) ==> d == p.name + ", " + p.country)
  {
  }

  lemma DisplayNameExamples()
    ensures DisplayName(Place("Paris", Some("Île-de-France"), "FR", 48.85, 2.35)) == "Paris, Île-de-France, FR"
    ensures DisplayName(Place("Tokyo", None, "JP", 35.68, 139.69)) == "Tokyo, JP"
    ensures DisplayName(Place("Tokyo", Some(""), "JP", 35.68, 139.69)) == "Tokyo, JP"
  {
  }

  /** Selecting a row writes its display text, closes the list, and fetches by the bare name. */
  lemma SelectionFetchesName(s: DashboardState, hasKey: bool, index: nat,
                             current: Response<CurrentConditions>, forecast: Response<Forecast>)
    requires index < |VisibleSuggestions(s)|
    ensures var p := s.suggestions[index];
      var t := Selected(s, hasKey, index, current, forecast);
      && t.searchQuery == DisplayName(p)
      && t.suggestions == [] && !t.showSuggestions
      && (hasKey ==> t.requests[|s.requests|] == CurrentRequest(p.name))
      && (hasKey && current.Ok? && forecast.Ok? ==> t.location == p.name)
  {
  }

  // ---------------------------------------------------------------------
  // The mount effect

  /** Without a key: the missing-key error, loading off, no request, no fallback fetch. */
  lemma MountWithoutKey(s: DashboardState, geo: Geolocation, reverse: Response<seq<Place>>,
                        current: Response<CurrentConditions>, forecast: Response<Forecast>)
    ensures Initialized(s, false, geo, reverse, current, forecast)
         == s.(error := Some(MissingKeyText), loading := false)
  {
  }

  /** No geolocation, a position error, or a failed reverse lookup all fetch "London". */
  lemma MountFallsBackToLondon(s: DashboardState, geo: Geolocation, reverse: Response<seq<Place>>,
                               current: Response<CurrentConditions>, forecast: Response<Forecast>)
    requires !geo.Position? || reverse.Failed?
    ensures var t := Initialized(s, true, geo, reverse, current, forecast);
      && t.requests[|t.requests| - (if current.Ok? then 2 else 1)] == CurrentRequest("London")
      && t.searchQuery == s.searchQuery
      && (current.Ok? && forecast.Ok? ==> t.location == "London")
  {
  }

  /** A place found for the position: its name goes into the search box and is fetched. */
  lemma MountUsesReverseGeocodedName(s: DashboardState, lat: real, lon: real, places: seq<Place>,
                                     current: Response<CurrentConditions>, forecast: Response<Forecast>)
    requires |places| > 0
    ensures var t := Initialized(s, true, Position(lat, lon), Ok(places), current, forecast);
      && t.searchQuery == places[0].name
      && t.requests[..|s.requests| + 2] == s.requests + [ReverseGeocode(lat, lon), CurrentRequest(places[0].name)]
  {
    var name := places[0].name;
    var s1 := s.(requests := s.requests + [ReverseGeocode(lat, lon)]);
    var s2 := QueryChanged(s1, name);
    assert s2.requests == s1.requests && s2.searchQuery == name;
    var t := Fetched(s2, true, name, current, forecast);
    assert Initialized(s, true, Position(lat, lon), Ok(places), current, forecast) == t;
    assert t.requests[..|s.requests| + 2] == s1.requests + [CurrentRequest(name)];
  }

  /** An empty reverse-geocoding answer leaves everything as it was: `loading` stays on. */
  lemma EmptyReverseGeocodeKeepsLoading(s: DashboardState, lat: real, lon: real,
                                        current: Response<CurrentConditions>, forecast: Response<Forecast>)
    ensures Initialized(s, true, Position(lat, lon), Ok([]), current, forecast)
         == s.(requests := s.requests + [ReverseGeocode(lat, lon)])
    ensures Initialized(InitialState, true, Position(lat, lon), Ok([]), current, forecast).loading
  {
  }

  // ---------------------------------------------------------------------
  // What is displayed

  /** Loading beats an error, an error beats the weather panels. */
  lemma ScreenPrecedence(s: DashboardState)
    ensures s.loading ==> ScreenAsWritten(s).Placeholder? && Display(s).Placeholder?
    ensures !s.loading && s.error.Some? ==> !ScreenAsWritten(s).Panels? && !Display(s).Panels?
    ensures !s.loading && s.error.None? ==>
      ScreenAsWritten(s) == Panels(s.weather, s.location) && Display(s) == ScreenAsWritten(s)
  {
  }

  /**
   * In every state the controller can be in, exactly one mode shows: the
   * spinner while loading, the error once settled with one, and otherwise the
   * panels with weather present.
   */
  lemma DisplayModes(s: DashboardState, hasKey: bool)
    requires Invariant(s, hasKey)
    ensures s.loading ==> Display(s) == Placeholder(LoadingWeather.Spinner)
    ensures !s.loading && s.error.Some? ==>
      Display(s) == (if Occurs(LoadingWeather.KeyMarker, s.error.value)
                     then Placeholder(LoadingWeather.KeyHelp(s.error.value))
                     else ErrorText(s.error.value))
    ensures !s.loading && s.error.None? ==> Display(s) == Panels(s.weather, s.location) && s.weather.Some?
  {
  }

  /** Both key-related texts mention the API key, so either selects the key-help panel. */
  lemma KeyTextsSelectKeyHelp()
    ensures LoadingWeather.Choose(Some(MissingKeyText)) == LoadingWeather.KeyHelp(MissingKeyText)
    ensures LoadingWeather.Choose(Some(UnauthorizedText)) == LoadingWeather.KeyHelp(UnauthorizedText)
  {
    assert MissingKeyText[0..7] == "API key";
    assert OccursAt(LoadingWeather.KeyMarker, MissingKeyText, 0);
    assert UnauthorizedText[41..48] == "API key";
    assert OccursAt(LoadingWeather.KeyMarker, UnauthorizedText, 41);
  }

  /** A not-found text for a query that mentions the API key selects the key-help panel too. */
  lemma NotFoundCanLookLikeKeyError()
    ensures LoadingWeather.Choose(Some(Message(NotFound("API key")))).KeyHelp?
  {
    var msg := Message(NotFound("API key"));
    assert msg[10..17] == "API key";
    assert OccursAt(LoadingWeather.KeyMarker, msg, 10);
  }

  // ---------------------------------------------------------------------
  // The key-help panel (see the finding in README.md)

  /** As written, the key-help panel never shows: while loading there is never an error. */
  lemma KeyHelpUnreachableAsWritten(s: DashboardState, hasKey: bool)
    requires Invariant(s, hasKey)
    ensures !(ScreenAsWritten(s).Placeholder? && ScreenAsWritten(s).panel.KeyHelp?)
  {
  }

  /** As written, a missing key at mount shows only the bare message. */
  lemma MissingKeyAsWritten(geo: Geolocation, reverse: Response<seq<Place>>,
                            current: Response<CurrentConditions>, forecast: Response<Forecast>)
    ensures ScreenAsWritten(Initialized(InitialState, false, geo, reverse, current, forecast))
         == ErrorText(MissingKeyText)
  {
  }

  /** With the corrected choice, a missing key at mount shows the key-help panel. */
  lemma MissingKeyShowsKeyHelp(geo: Geolocation, reverse: Response<seq<Place>>,
                               current: Response<CurrentConditions>, forecast: Response<Forecast>)
    ensures Display(Initialized(InitialState, false, geo, reverse, current, forecast))
         == Placeholder(LoadingWeather.KeyHelp(MissingKeyText))
  {
    KeyTextsSelectKeyHelp();
  }

  /** With the corrected choice, a rejected key shows the key-help panel once the fetch settles. */
  lemma UnauthorizedShowsKeyHelp(s: DashboardState, query: string, message: Option<string>,
                                 forecast: Response<Forecast>)
    ensures Display(Fetched(s, true, query, Failed(HttpError(401, message)), forecast))
         == Placeholder(LoadingWeather.KeyHelp(UnauthorizedText))
  {
    KeyTextsSelectKeyHelp();
  }
}
