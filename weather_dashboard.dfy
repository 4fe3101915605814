/**
 * The dashboard controller: its seven pieces of React state, the two pending
 * timer tasks, and every transition the component performs on them.
 *
 * Each transition is given twice: as a function on `DashboardState` (what the
 * state becomes), and as a method of `WeatherDashboard` that performs the
 * component's setter calls one by one and is proved to reach that state.
 * A network round trip is one transition; what the provider answered is an
 * argument of it.
 */
module Dashboard {
  import opened Wrappers
  import opened Text
  import opened Payload
  import opened FetchErrors
  import LoadingWeather

  /** What an axios call yields: the body, or how it failed. */
  datatype Response<T> = Ok(body: T) | Failed(failure: Failure)

  /** What the host's geolocation gives: no capability, the error callback, or a position. */
  datatype Geolocation = Unsupported | PositionError | Position(latitude: real, longitude: real)

  /** The provider requests issued so far, in order. */
  datatype Request =
    | CurrentRequest(query: string)
    | ForecastRequest(query: string)
    | PlaceSearch(query: string)
    | ReverseGeocode(latitude: real, longitude: real)

  /** The `weather` state: both responses of one successful fetch. */
  datatype Snapshot = Snapshot(current: CurrentConditions, forecast: Forecast)

  /**
   * The component state. `pendingLookup` is the debounce timer (with the
   * query its callback will look up), `pendingHides` counts the blur timers
   * not yet fired, `requests` records the calls made to the provider.
   */
  datatype DashboardState = DashboardState(
    location: string,
    searchQuery: string,
    weather: Option<Snapshot>,
    loading: bool,
    error: Option<string>,
    suggestions: seq<Place>,
    showSuggestions: bool,
    pendingLookup: Option<string>,
    pendingHides: nat,
    requests: seq<Request>)

  /** The `useState` initial values; no timer pending, nothing requested. */
  const InitialState: DashboardState :=
    DashboardState("", "", None, true, None, [], false, None, 0, [])

  const DefaultLocation: string := "London"

  /** The debounce effect's test `searchQuery.trim().length > 1`. */
  predicate SchedulesLookup(q: string)
  {
    Utf16Length(Trim(q)) > 1
  }

  /**
   * `setSearchQuery(q)` and the effect on `[searchQuery]`. React re-runs the
   * effect only when the value changed; the re-run first cancels the pending
   * timer (the cleanup), then schedules a lookup of `q` or clears the list.
   */
  function QueryChanged(s: DashboardState, q: string): DashboardState
  {
    if q == s.searchQuery then s
    else if SchedulesLookup(q) then s.(searchQuery := q, pendingLookup := Some(q))
    else s.(searchQuery := q, pendingLookup := None, suggestions := [], showSuggestions := false)
  }

  /**
   * `fetchWeatherData(query)`: without a key, the missing-key error and no
   * request; otherwise the current-conditions request, then (only if that
   * succeeded) the forecast request; any failure is classified into `error`.
   */
  function Fetched(s: DashboardState, hasKey: bool, query: string,
                   current: Response<CurrentConditions>, forecast: Response<Forecast>): DashboardState
  {
    if !hasKey then
      s.(loading := false, error := Some(Message(MissingKey)))
    else if current.Failed? then
      s.(loading := false, error := Some(Message(Classify(current.failure, query))),
         requests := s.requests + [CurrentRequest(query)])
    else if forecast.Failed? then
      s.(loading := false, error := Some(Message(Classify(forecast.failure, query))),
         requests := s.requests + [CurrentRequest(query), ForecastRequest(query)])
    else
      s.(loading := false, error := None, weather := Some(Snapshot(current.body, forecast.body)),
         location := query, requests := s.requests + [CurrentRequest(query), ForecastRequest(query)])
  }

  /**
   * `fetchSuggestions(query)`: nothing without a key; a failed search is
   * swallowed; a result replaces the list and opens the dropdown when the
   * query is not blank.
   */
  function SuggestionsFetched(s: DashboardState, hasKey: bool, query: string,
                              outcome: Response<seq<Place>>): DashboardState
  {
    if !hasKey then s
    else
      var s1 := s.(requests := s.requests + [PlaceSearch(query)]);
      match outcome
      case Failed(_) => s1
      case Ok(places) =>
        s1.(suggestions := places, showSuggestions := if !IsBlank(query) then true else s1.showSuggestions)
  }

  /** The debounce timer fires: its lookup runs with the query it was scheduled for. */
  function LookupFired(s: DashboardState, hasKey: bool, outcome: Response<seq<Place>>): DashboardState
    requires s.pendingLookup.Some?
  {
    SuggestionsFetched(s.(pendingLookup := None), hasKey, s.pendingLookup.value, outcome)
  }

  /**
   * The mount effect: the missing-key error without any request; otherwise
   * "London" unless geolocation and reverse geocoding give a place, whose
   * name becomes the search text and the fetched location. An empty
   * reverse-geocoding answer does nothing at all.
   */
  function Initialized(s: DashboardState, hasKey: bool, geo: Geolocation, reverse: Response<seq<Place>>,
                       current: Response<CurrentConditions>, forecast: Response<Forecast>): DashboardState
  {
    if !hasKey then s.(error := Some(Message(MissingKey)), loading := false)
    else
      match geo
      case Unsupported => Fetched(s, hasKey, DefaultLocation, current, forecast)
      case PositionError => Fetched(s, hasKey, DefaultLocation, current, forecast)
      case Position(lat, lon) =>
        var s1 := s.(requests := s.requests + [ReverseGeocode(lat, lon)]);
        match reverse
        case Failed(_) => Fetched(s1, hasKey, DefaultLocation, current, forecast)
        case Ok(places) =>
          if |places| > 0 then
            Fetched(QueryChanged(s1, places[0].name), hasKey, places[0].name, current, forecast)
          else s1
  }

  /** `handleSearch`: a blank input does nothing; otherwise fetch the input as typed and close the list. */
  function Searched(s: DashboardState, hasKey: bool,
                    current: Response<CurrentConditions>, forecast: Response<Forecast>): DashboardState
  {
    if IsBlank(s.searchQuery) then s
    else Fetched(s, hasKey, s.searchQuery, current, forecast).(showSuggestions := false, suggestions := [])
  }

  /** `state` is truthy: present and not empty. */
  predicate HasState(p: Place)
  {
    p.state.Some? && p.state.value != ""
  }

  /** The text a selected suggestion puts in the search box. */
  function DisplayName(p: Place): string
  {
    p.name + (if HasState(p) then ", " + p.state.value else "") + ", " + p.country
  }

  /** The dropdown's rows: shown only when open and non-empty. */
  function VisibleSuggestions(s: DashboardState): seq<Place>
  {
    if s.showSuggestions then s.suggestions else []
  }

  /** A click on row `index`: display text into the box, close the list, fetch the bare name. */
  function Selected(s: DashboardState, hasKey: bool, index: nat,
                    current: Response<CurrentConditions>, forecast: Response<Forecast>): DashboardState
    requires index < |VisibleSuggestions(s)|
  {
    var p := s.suggestions[index];
    Fetched(QueryChanged(s, DisplayName(p)).(showSuggestions := false, suggestions := []),
            hasKey, p.name, current, forecast)
  }

  /** `onFocus`: reopen the list if it has rows. */
  function Focused(s: DashboardState): DashboardState
  {
    if |s.suggestions| > 0 then s.(showSuggestions := true) else s
  }

  /** `onBlur`: schedule hiding the list. */
  function Blurred(s: DashboardState): DashboardState
  {
    s.(pendingHides := s.pendingHides + 1)
  }

  /** A blur timer fires and hides the list. */
  function HideFired(s: DashboardState): DashboardState
    requires s.pendingHides > 0
  {
    s.(pendingHides := s.pendingHides - 1, showSuggestions := false)
  }

  /** `msg` is the text of the fetch error kind `e`. */
  ghost predicate TextOf(e: FetchError, msg: string)
  {
    Message(e) == msg
  }

  /** `msg` is the text of some fetch error kind. */
  ghost predicate IsErrorText(msg: string)
  {
    exists e :: TextOf(e, msg)
  }

  /**
   * What stays true of the state between transitions: while loading there is
   * no error; once settled without error there is weather; every error text
   * is one of the fetch error kinds; the pending lookup is for the current,
   * long-enough input; and without a key no request is ever issued.
   */
  ghost predicate Invariant(s: DashboardState, hasKey: bool)
  {
    && (s.loading ==> s.error.None?)
    && (!s.loading && s.error.None? ==> s.weather.Some?)
    && (s.error.Some? ==> IsErrorText(s.error.value))
    && (s.pendingLookup.Some? ==> s.pendingLookup.value == s.searchQuery && SchedulesLookup(s.searchQuery))
    && (!hasKey ==> s.requests == [])
  }

  lemma InitialInvariant(hasKey: bool)
    ensures Invariant(InitialState, hasKey)
  {
  }

  lemma QueryChangedInvariant(s: DashboardState, hasKey: bool, q: string)
    requires Invariant(s, hasKey)
    ensures Invariant(QueryChanged(s, q), hasKey)
  {
  }

  lemma FetchedInvariant(s: DashboardState, hasKey: bool, query: string,
                         current: Response<CurrentConditions>, forecast: Response<Forecast>)
    requires Invariant(s, hasKey)
    ensures Invariant(Fetched(s, hasKey, query, current, forecast), hasKey)
  {
    if !hasKey {
      assert TextOf(MissingKey, Message(MissingKey));
    } else if current.Failed? {
      assert TextOf(Classify(current.failure, query), Message(Classify(current.failure, query)));
    } else if forecast.Failed? {
      assert TextOf(Classify(forecast.failure, query), Message(Classify(forecast.failure, query)));
    }
  }

  lemma SuggestionsFetchedInvariant(s: DashboardState, hasKey: bool, query: string, outcome: Response<seq<Place>>)
    requires Invariant(s, hasKey)
    ensures Invariant(SuggestionsFetched(s, hasKey, query, outcome), hasKey)
  {
  }

  lemma InitializedInvariant(s: DashboardState, hasKey: bool, geo: Geolocation, reverse: Response<seq<Place>>,
                             current: Response<CurrentConditions>, forecast: Response<Forecast>)
    requires Invariant(s, hasKey)
    ensures Invariant(Initialized(s, hasKey, geo, reverse, current, forecast), hasKey)
  {
    if !hasKey {
      assert TextOf(MissingKey, Message(MissingKey));
    } else if geo.Position? {
      var s1 := s.(requests := s.requests + [ReverseGeocode(geo.latitude, geo.longitude)]);
      if reverse.Ok? && |reverse.body| > 0 {
        QueryChangedInvariant(s1, hasKey, reverse.body[0].name);
        FetchedInvariant(QueryChanged(s1, reverse.body[0].name), hasKey, reverse.body[0].name, current, forecast);
      } else {
        FetchedInvariant(s1, hasKey, DefaultLocation, current, forecast);
      }
    } else {
      FetchedInvariant(s, hasKey, DefaultLocation, current, forecast);
    }
  }

  lemma SearchedInvariant(s: DashboardState, hasKey: bool,
                          current: Response<CurrentConditions>, forecast: Response<Forecast>)
    requires Invariant(s, hasKey)
    ensures Invariant(Searched(s, hasKey, current, forecast), hasKey)
  {
    FetchedInvariant(s, hasKey, s.searchQuery, current, forecast);
  }

  lemma SelectedInvariant(s: DashboardState, hasKey: bool, index: nat,
                          current: Response<CurrentConditions>, forecast: Response<Forecast>)
    requires Invariant(s, hasKey)
    requires index < |VisibleSuggestions(s)|
    ensures Invariant(Selected(s, hasKey, index, current, forecast), hasKey)
  {
    var p := s.suggestions[index];
    var s1 := QueryChanged(s, DisplayName(p)).(showSuggestions := false, suggestions := []);
    FetchedInvariant(s1, hasKey, p.name, current, forecast);
  }

  // ---------------------------------------------------------------------
  // What the component renders below the search form.

  datatype Screen =
    | Placeholder(panel: LoadingWeather.Panel)
    | ErrorText(text: string)
    | Panels(weather: Option<Snapshot>, location: string)

  /** The component's choice as written: loading, then error, then the weather panels. */
  function ScreenAsWritten(s: DashboardState): Screen
  {
    if s.loading then Placeholder(LoadingWeather.Choose(s.error))
    else if s.error.Some? then ErrorText(s.error.value)
    else Panels(s.weather, s.location)
  }

  /**
   * The same precedence, with an error that mentions the API key shown in
   * the key-help panel rather than as a bare line of text.
   */
  function Display(s: DashboardState): Screen
  {
    if s.loading then Placeholder(LoadingWeather.Choose(s.error))
    else if s.error.Some? then
      (match LoadingWeather.Choose(s.error)
       case KeyHelp(text) => Placeholder(LoadingWeather.KeyHelp(text))
       case Spinner => ErrorText(s.error.value))
    else Panels(s.weather, s.location)
  }

  // ---------------------------------------------------------------------
  // The controller object.

  class WeatherDashboard {
    const apiKey: string
    var location: string
    var searchQuery: string
    var weather: Option<Snapshot>
    var loading: bool
    var error: Option<string>
    var suggestions: seq<Place>
    var showSuggestions: bool
    var pendingLookup: Option<string>
    var pendingHides: nat
    var requests: seq<Request>

    function State(): DashboardState
      reads this
    {
      DashboardState(location, searchQuery, weather, loading, error, suggestions,
                     showSuggestions, pendingLookup, pendingHides, requests)
    }

    /** A missing environment variable reads as "". */
    predicate HasKey()
    {
      apiKey != ""
    }

    ghost predicate Valid()
      reads this
    {
      Invariant(State(), HasKey())
    }

    constructor (apiKey: string)
      ensures this.apiKey == apiKey
      ensures State() == InitialState && Valid()
    {
      this.apiKey := apiKey;
      location := "";
      searchQuery := "";
      weather := None;
      loading := true;
      error := None;
      suggestions := [];
      showSuggestions := false;
      pendingLookup := None;
      pendingHides := 0;
      requests := [];
    }

    method FetchWeatherData(query: string, current: Response<CurrentConditions>, forecast: Response<Forecast>)
      requires Valid()
      modifies this
      ensures Valid()
      ensures State() == Fetched(old(State()), HasKey(), query, current, forecast)
    {
      ghost var before := State();
      FetchedInvariant(before, HasKey(), query, current, forecast);
      ghost var after := Fetched(before, HasKey(), query, current, forecast);
      loading := true;
      error := None;
      var failed: Option<FetchError> := None;
      if !HasKey() {
        failed := Some(MissingKey);
        assert after == before.(loading := false, error := Some(Message(MissingKey)));
      } else {
        requests := requests + [CurrentRequest(query)];
        if current.Failed? {
          failed := Some(Classify(current.failure, query));
          assert after.requests == requests && after.weather == weather && after.location == location;
        } else {
          requests := requests + [ForecastRequest(query)];
          if forecast.Failed? {
            failed := Some(Classify(forecast.failure, query));
            assert after.requests == requests && after.weather == weather && after.location == location;
          } else {
            weather := Some(Snapshot(current.body, forecast.body));
            location := query;
            assert after.requests == requests && after.weather == weather && after.location == location;
          }
        }
      }
      assert after.error == (if failed.Some? then Some(Message(failed.value)) else None);
      if failed.Some? {
        error := Some(Message(failed.value));
      }
      loading := false;
      assert State() == Fetched(before, HasKey(), query, current, forecast);
    }

    method FetchSuggestions(query: string, outcome: Response<seq<Place>>)
      requires Valid()
      modifies this
      ensures Valid()
      ensures State() == SuggestionsFetched(old(State()), HasKey(), query, outcome)
    {
      if !HasKey() {
        return;
      }
      requests := requests + [PlaceSearch(query)];
      if outcome.Ok? {
        suggestions := outcome.body;
        if !IsBlank(query) {
          showSuggestions := true;
        }
      }
    }

    /** The input's `onChange`, or any other `setSearchQuery`, with the effect it triggers. */
    method SetSearchQuery(q: string)
      requires Valid()
      modifies this
      ensures Valid()
      ensures State() == QueryChanged(old(State()), q)
    {
      ghost var before := State();
      QueryChangedInvariant(before, HasKey(), q);
      if q != searchQuery {
        var lookup := SchedulesLookup(q);
        searchQuery := q;
        pendingLookup := None;
        if lookup {
          pendingLookup := Some(searchQuery);
        } else {
          suggestions := [];
          showSuggestions := false;
        }
      }
    }

    method DebounceTimerFires(outcome: Response<seq<Place>>)
      requires Valid()
      requires pendingLookup.Some?
      modifies this
      ensures Valid()
      ensures State() == LookupFired(old(State()), HasKey(), outcome)
    {
      var query := pendingLookup.value;
      pendingLookup := None;
      FetchSuggestions(query, outcome);
    }

    method InitialLocation(geo: Geolocation, reverse: Response<seq<Place>>,
                           current: Response<CurrentConditions>, forecast: Response<Forecast>)
      requires Valid()
      modifies this
      ensures Valid()
      ensures State() == Initialized(old(State()), HasKey(), geo, reverse, current, forecast)
    {
      ghost var before := State();
      InitializedInvariant(before, HasKey(), geo, reverse, current, forecast);
      if !HasKey() {
        error := Some(MissingKeyText);
        loading := false;
        assert State() == before.(error := Some(Message(MissingKey)), loading := false);
        return;
      }
      match geo {
        case Unsupported =>
          FetchWeatherData(DefaultLocation, current, forecast);
        case PositionError =>
          FetchWeatherData(DefaultLocation, current, forecast);
        case Position(lat, lon) =>
          requests := requests + [ReverseGeocode(lat, lon)];
          match reverse {
            case Failed(_) =>
              FetchWeatherData(DefaultLocation, current, forecast);
            case Ok(places) =>
              if |places| > 0 {
                var cityName := places[0].name;
                SetSearchQuery(cityName);
                FetchWeatherData(cityName, current, forecast);
              }
          }
      }
    }

    method HandleSearch(current: Response<CurrentConditions>, forecast: Response<Forecast>)
      requires Valid()
      modifies this
      ensures Valid()
      ensures State() == Searched(old(State()), HasKey(), current, forecast)
    {
      if !IsBlank(searchQuery) {
        FetchWeatherData(searchQuery, current, forecast);
        showSuggestions := false;
        suggestions := [];
      }
    }

    method SelectSuggestion(index: nat, current: Response<CurrentConditions>, forecast: Response<Forecast>)
      requires Valid()
      requires index < |VisibleSuggestions(State())|
      modifies this
      ensures Valid()
      ensures State() == Selected(old(State()), HasKey(), index, current, forecast)
    {
      ghost var before := State();
      var suggestion := suggestions[index];
      var selectedCity := suggestion.name
        + (if suggestion.state.Some? && suggestion.state.value != "" then ", " + suggestion.state.value else "")
        + ", " + suggestion.country;
      assert selectedCity == DisplayName(suggestion);
      SetSearchQuery(selectedCity);
      ghost var typed := State();
      showSuggestions := false;
      suggestions := [];
      assert State() == typed.(showSuggestions := false, suggestions := []);
      FetchWeatherData(suggestion.name, current, forecast);
    }

    method Focus()
      requires Valid()
      modifies this
      ensures Valid()
      ensures State() == Focused(old(State()))
    {
      if |suggestions| > 0 {
        showSuggestions := true;
      }
    }

    method Blur()
      requires Valid()
      modifies this
      ensures Valid()
      ensures State() == Blurred(old(State()))
    {
      pendingHides := pendingHides + 1;
    }

    method BlurTimerFires()
      requires Valid()
      requires pendingHides > 0
      modifies this
      ensures Valid()
      ensures State() == HideFired(old(State()))
    {
      pendingHides := pendingHides - 1;
      showSuggestions := false;
    }
  }
}
