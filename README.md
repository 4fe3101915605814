# Weather dashboard: a verified model of its controller and forecast panels

The application is a single-page weather dashboard built on the OpenWeather
API. This project models the parts of it that hold logic:

- the `WeatherDashboard` controller. It keeps seven pieces of state: location,
  search text, weather, loading flag, error text, the list of suggestions and
  whether that list is shown. Its transitions are:
  - fetching the weather, with an error message for each kind of failure;
  - the debounced place search as the user types;
  - the mount-time geolocation with its London fallback;
  - submitting the form;
  - picking a suggestion;
  - focus and blur of the search box;
  - which panel is rendered while loading, on error and on success;
- the three copies of `getWeatherIcon`. Each maps an OpenWeather condition code
  to one of seven icons;
- the hourly strip, which keeps the first eight 3-hour samples;
- the daily list, which keeps the first sample of each calendar day and
  shows at most five days;
- the placeholder panel, which shows help about the API key when the
  error text contains "API key" and a spinner otherwise.

Modules, one per source file plus shared pieces:

| module | file | models |
|---|---|---|
| `Wrappers` | wrappers.dfy | `Option`, `Min` |
| `Text` | text.dfy | JavaScript `trim`, UTF-16 `length`, `includes` |
| `Payload` | payload.dfy | the response fields the components read |
| `Conditions` | conditions.dfy | the icon categories and the code band of each |
| `Seqs` | seqs.dfy | `slice(0, n)` and the subsequence relation |
| `CurrentWeather` | current_weather.dfy | current-weather.jsx |
| `HourlyForecast` | hourly_forecast.dfy | hourly-forecast.jsx |
| `DailyForecast` | daily_forecast.dfy | daily-forecast.jsx |
| `LoadingWeather` | loading_weather.dfy | loading-weather.jsx |
| `FetchErrors` | fetch_errors.dfy | the `catch` block of `fetchWeatherData` and its texts |
| `Dashboard` | weather_dashboard.dfy | weather-dashboard.jsx: state, transitions, screen, the controller class |
| `DashboardProperties` | dashboard_properties.dfy | what each transition promises |
| `DashboardScenarios` | dashboard_scenarios.dfy | whole sessions driven through the class |

## How it is modelled

Each controller transition is written twice:

- as a pure function on `DashboardState`;
- as a method of the class `WeatherDashboard`, which performs the
  component's setter calls in order.

Each method is proved to:

- reach exactly the state the function describes;
- preserve `Invariant`. While loading there is no error. Once settled
  without error there is weather. Every error text is the message of a fetch
  error kind. A pending lookup is for the current input, and that input is
  long enough. Without a key no request is ever made.

Outside inputs are parameters of the transitions:

- each network call yields a `Response` (a body or a `Failure`);
- geolocation is a `Geolocation` value;
- the calendar day of a timestamp is a function `dayOf`.

Every request made to the provider is appended to `requests`, so "no request
is made" is a statement about the state.

The two timers are explicit state:

- the debounce timer is `pendingLookup`, holding the query it will look up;
- the blur timers are `pendingHides`, a count of timers not yet fired.

Their firing is a transition of its own.

JavaScript details written out:

- `trim` removes the ECMAScript whitespace and line-terminator characters.
- `length` counts UTF-16 code units.
- Truthiness: an empty string counts as absent. This covers a missing API
  key, an empty `state` of a place, and an empty provider `message`.

Where the code and the design description of the application disagree, the
model follows the code:

- The form fetches the search text exactly as typed; only the emptiness test
  trims it.
- Without an API key the mount effect stops after setting the error. There is
  no London fallback and no request.
- Whether a suggestion response opens the list is decided by the query the
  timer captured, not by the current input.

## Model

| member | source | states |
|---|---|---|
| Text.TrimStart | src/components/weather-dashboard.jsx:101 | the result is no longer than the input and does not start with whitespace |
| Text.TrimStartDrops | src/components/weather-dashboard.jsx:101 | trimming the start keeps a suffix of the input and drops only whitespace characters |
| Text.TrimEnd | src/components/weather-dashboard.jsx:101 | the result is no longer than the input and does not end with whitespace |
| Text.TrimEndDrops | src/components/weather-dashboard.jsx:101 | trimming the end keeps a prefix of the input and drops only whitespace characters |
| Text.Trim | src/components/weather-dashboard.jsx:101 | `trim` leaves no whitespace at either end and never lengthens the input |
| Text.TrimEmpty | src/components/weather-dashboard.jsx:152 | the trimmed text is empty exactly when every character is whitespace, i.e. when `searchQuery.trim()` is falsy |
| Text.TrimIsPiece | src/components/weather-dashboard.jsx:91 | the trimmed text is a contiguous piece of the input with only whitespace removed before and after it |
| Text.TrimKeeps | src/components/weather-dashboard.jsx:101 | a non-empty text with no whitespace at either end is its own trim |
| Text.Utf16Length | src/components/weather-dashboard.jsx:101 | `length` counts between one and two units per character |
| Text.IncludesIsOccurs | src/components/loading-weather.jsx:7 | the left-to-right scan of `includes` is true exactly when the marker occurs at some position |
| Conditions.BandsPartition | src/components/current-weather.jsx:17-31 | every condition code lies in exactly one icon band |
| Conditions.BandDetermines | src/components/current-weather.jsx:17-31 | two icon choices that respect the bands agree on every code |
| CurrentWeather.IconFor | src/components/current-weather.jsx:17-31 | the chosen icon is the one whose band contains the code (thunderstorm 2xx, drizzle 3xx, rain 5xx, snow 6xx, fog 7xx, sun 800, cloud for all else) |
| CurrentWeather.Render | src/components/current-weather.jsx:15-35 | nothing without data; otherwise the card shows the given location, the first condition's description and the icon of its band |
| HourlyForecast.IconFor | src/components/hourly-forecast.jsx:10-18 | the hourly copy of the icon choice respects the bands |
| HourlyForecast.IconMatchesCurrent | src/components/hourly-forecast.jsx:10-18 | the hourly copy agrees with the current-weather copy on every code |
| HourlyForecast.Select | src/components/hourly-forecast.jsx:8-26 | nothing without data or a `list`; otherwise the first `min(8, n)` entries of the list, in order |
| HourlyForecast.Render | src/components/hourly-forecast.jsx:8-63 | one tile per selected entry: at most eight, each keyed by that entry's `dt` and drawn with the icon of its condition's band |
| DailyForecast.IconFor | src/components/daily-forecast.jsx:9-17 | the daily copy of the icon choice respects the bands |
| DailyForecast.IconMatchesCurrent | src/components/daily-forecast.jsx:9-17 | the daily copy agrees with the current-weather copy on every code |
| DailyForecast.KeepFirstDays | src/components/daily-forecast.jsx:24-36 | the days of the kept entries are exactly the days that occur in the list |
| DailyForecast.KeepFirstDistinct | src/components/daily-forecast.jsx:24-36 | no two kept entries fall on the same day |
| DailyForecast.KeepFirstSubsequence | src/components/daily-forecast.jsx:24-36 | the kept entries appear in the list in the same order |
| DailyForecast.KeptAreFirst | src/components/daily-forecast.jsx:24-36 | every kept entry is the first entry of its day in the list |
| DailyForecast.FirstsAreKept | src/components/daily-forecast.jsx:24-36 | every first entry of a day is kept |
| DailyForecast.KeepFirstStartsWithHead | src/components/daily-forecast.jsx:24-36 | a non-empty list always keeps its first entry, first |
| DailyForecast.GroupByDay | src/components/daily-forecast.jsx:24-36 | the `forEach` loop over the `days` record pushes exactly the entries of the first-per-day selection, in order |
| DailyForecast.Render | src/components/daily-forecast.jsx:7-77 | nothing without data or a `list`; otherwise one row for each of the first `min(5, days)` kept entries, keyed by `dt` and drawn with its icon |
| Seqs.Take | src/components/hourly-forecast.jsx:26 | `slice(0, n)` keeps `min(n, length)` elements, each equal to the element at the same index |
| LoadingWeather.Choose | src/components/loading-weather.jsx:6-30 | the key-help panel exactly when an error is present and "API key" occurs in it, showing that error text; the spinner otherwise |
| FetchErrors.ParseMessage | src/components/weather-dashboard.jsx:55-77 | every error text determines its kind, and gives back the query of a not-found text and the provider text of a provider error |
| FetchErrors.MessageInjective | src/components/weather-dashboard.jsx:55-77 | distinct error kinds never produce the same text |
| FetchErrors.ClassificationTable | src/components/weather-dashboard.jsx:57-77 | 401 gives the authentication text; 404 the not-found text naming the query; another status `Error: ` plus the provider message, or the fallback when that is empty; no response the connection text; anything else the unexpected text |
| Dashboard.InitialInvariant | src/components/weather-dashboard.jsx:16-22 | the initial state satisfies the controller invariant |
| Dashboard.QueryChangedInvariant | src/components/weather-dashboard.jsx:100-110 | changing the input, with the effect it triggers, preserves the invariant |
| Dashboard.FetchedInvariant | src/components/weather-dashboard.jsx:26-81 | a weather fetch preserves the invariant on every path |
| Dashboard.SuggestionsFetchedInvariant | src/components/weather-dashboard.jsx:83-97 | a place search preserves the invariant |
| Dashboard.InitializedInvariant | src/components/weather-dashboard.jsx:112-148 | the mount effect preserves the invariant on every geolocation outcome |
| Dashboard.SearchedInvariant | src/components/weather-dashboard.jsx:150-157 | submitting the form preserves the invariant |
| Dashboard.SelectedInvariant | src/components/weather-dashboard.jsx:188-196 | picking a suggestion preserves the invariant |
| Dashboard.WeatherDashboard.constructor | src/components/weather-dashboard.jsx:16-24 | the new controller holds the `useState` initial values and the given key, and satisfies the invariant |
| Dashboard.WeatherDashboard.FetchWeatherData | src/components/weather-dashboard.jsx:26-81 | the setter sequence reaches the state of `Fetched` and keeps the invariant |
| Dashboard.WeatherDashboard.FetchSuggestions | src/components/weather-dashboard.jsx:83-97 | the setter sequence reaches the state of `SuggestionsFetched` and keeps the invariant |
| Dashboard.WeatherDashboard.SetSearchQuery | src/components/weather-dashboard.jsx:99-110 | an input change reaches the state of `QueryChanged`: nothing when unchanged, else a new pending lookup or a cleared, hidden list; keeps the invariant |
| Dashboard.WeatherDashboard.DebounceTimerFires | src/components/weather-dashboard.jsx:102-105 | the timer's callback clears the pending lookup and runs the search for the captured query; keeps the invariant |
| Dashboard.WeatherDashboard.InitialLocation | src/components/weather-dashboard.jsx:112-148 | the mount effect reaches the state of `Initialized` on every path and keeps the invariant |
| Dashboard.WeatherDashboard.HandleSearch | src/components/weather-dashboard.jsx:150-157 | the submit handler reaches the state of `Searched` and keeps the invariant |
| Dashboard.WeatherDashboard.SelectSuggestion | src/components/weather-dashboard.jsx:182-196 | a click on a visible row reaches the state of `Selected` and keeps the invariant |
| Dashboard.WeatherDashboard.Focus | src/components/weather-dashboard.jsx:169-171 | focus reopens the list only when it has rows; keeps the invariant |
| Dashboard.WeatherDashboard.Blur | src/components/weather-dashboard.jsx:173-175 | blur schedules one more hide timer and changes nothing else; keeps the invariant |
| Dashboard.WeatherDashboard.BlurTimerFires | src/components/weather-dashboard.jsx:174 | a hide timer firing hides the list and changes nothing else; keeps the invariant |
| DashboardProperties.FetchWithoutKey | src/components/weather-dashboard.jsx:30-37 | without a key: the missing-key text, loading off, no request, nothing else changed |
| DashboardProperties.FetchSucceeds | src/components/weather-dashboard.jsx:42-54 | both calls succeed: both bodies become the weather, the query becomes the location, the error is cleared, both requests are recorded |
| DashboardProperties.FetchFails | src/components/weather-dashboard.jsx:42-77 | the first failure is classified into the error; the old weather and location stay; after a failed current-conditions call the forecast is never requested; search state is untouched |
| DashboardProperties.FetchSettles | src/components/weather-dashboard.jsx:78-80 | every fetch ends with loading off, and without an error exactly when the key is present and both calls succeed |
| DashboardProperties.NotFoundAtlantis | src/components/weather-dashboard.jsx:60-63 | a 404 for "Atlantis" gives a text that reads back as not-found for "Atlantis" |
| DashboardProperties.SuggestionsOutcome | src/components/weather-dashboard.jsx:83-97 | no key: nothing; a failed search: only the request is recorded; a result: it replaces the list, the list opens when the query is not blank, nothing else changes |
| DashboardProperties.QueryChangeEffect | src/components/weather-dashboard.jsx:100-110 | a changed input either schedules a lookup of the untrimmed input, cancelling any earlier one, or clears and hides the list |
| DashboardProperties.TypingLeavesOnlyFinalLookup | src/components/weather-dashboard.jsx:100-110 | after any burst of typing: at most one lookup is pending, it is for the last input, it is pending when that input is long enough and new, no request was made, and the invariant holds |
| DashboardProperties.SchedulesLookupByLength | src/components/weather-dashboard.jsx:101 | a lookup is scheduled exactly when the trimmed input has at least two characters, or one character outside the Basic Multilingual Plane |
| DashboardProperties.SearchFetchesInputAsTyped | src/components/weather-dashboard.jsx:150-157 | a blank input does nothing; otherwise the untrimmed input is requested and becomes the location on success, and the list closes |
| DashboardProperties.SearchDoesNotTrim | src/components/weather-dashboard.jsx:152-153 | searching " Paris" sets the location to " Paris", leading space kept |
| DashboardProperties.DisplayNameShape | src/components/weather-dashboard.jsx:189-191 | the display text is the name, then ", state" only when the state is non-empty, then ", country" |
| DashboardProperties.DisplayNameExamples | src/components/weather-dashboard.jsx:189-191 | "Paris, Île-de-France, FR"; "Tokyo, JP" for both an absent and an empty state |
| DashboardProperties.SelectionFetchesName | src/components/weather-dashboard.jsx:188-196 | picking a row puts its display text in the box, closes and empties the list, and fetches the bare name, which becomes the location on success |
| DashboardProperties.MountWithoutKey | src/components/weather-dashboard.jsx:113-120 | without a key the mount effect sets the missing-key text and stops loading; no request, no fallback |
| DashboardProperties.MountFallsBackToLondon | src/components/weather-dashboard.jsx:136-147 | no geolocation, a position error, or a failed reverse lookup fetch "London" and leave the search box alone |
| DashboardProperties.MountUsesReverseGeocodedName | src/components/weather-dashboard.jsx:127-135 | a place found for the position puts its name in the search box; the reverse lookup and then that name's current-conditions request are made |
| DashboardProperties.EmptyReverseGeocodeKeepsLoading | src/components/weather-dashboard.jsx:131-135 | an empty reverse-geocoding answer changes nothing but the request log, so a fresh dashboard stays loading |
| DashboardProperties.ScreenPrecedence | src/components/weather-dashboard.jsx:207-245 | loading shows the placeholder; otherwise an error hides the panels; otherwise the panels show |
| DashboardProperties.DisplayModes | src/components/weather-dashboard.jsx:207-245 | in every reachable state: the spinner while loading; once settled, the error (key help when it mentions the API key), or the panels with weather present |
| DashboardProperties.KeyTextsSelectKeyHelp | src/components/loading-weather.jsx:7 | the missing-key and authentication texts both contain "API key" |
| DashboardProperties.NotFoundCanLookLikeKeyError | src/components/weather-dashboard.jsx:60-63 | a not-found text for the query "API key" also selects the key-help panel |
| DashboardProperties.KeyHelpUnreachableAsWritten | src/components/weather-dashboard.jsx:208-215 | as written, no reachable state renders the key-help panel |
| DashboardProperties.MissingKeyAsWritten | src/components/weather-dashboard.jsx:217-226 | as written, a missing key at mount shows only the bare error line |
| DashboardProperties.MissingKeyShowsKeyHelp | src/components/loading-weather.jsx:6-12 | with the corrected choice, a missing key at mount shows the key-help panel with the missing-key text |
| DashboardProperties.UnauthorizedShowsKeyHelp | src/components/weather-dashboard.jsx:58-59 | with the corrected choice, a rejected key shows the key-help panel with the authentication text |
| DashboardScenarios.LongInputSchedules | src/components/weather-dashboard.jsx:101 | an input of two or more characters with no whitespace at either end schedules a lookup and is not blank |
| DashboardScenarios.TypedA | src/components/weather-dashboard.jsx:101 | "a" is too short to schedule a lookup |
| DashboardScenarios.TypedAt | src/components/weather-dashboard.jsx:101 | "at" schedules a lookup |
| DashboardScenarios.TypedAtl | src/components/weather-dashboard.jsx:101 | "atl" schedules a lookup |
| DashboardScenarios.TypedParis | src/components/weather-dashboard.jsx:101 | "Paris" schedules a lookup |
| DashboardScenarios.TypingBurst | src/components/weather-dashboard.jsx:100-105 | typing "a", "at", "atl" leaves one lookup pending, for "atl", with no request made; when it fires, exactly one search for "atl" is made and its answer is shown |
| DashboardScenarios.ShortInputClears | src/components/weather-dashboard.jsx:106-109 | after a search for "at" has answered, typing "a" schedules nothing and clears and hides the list at once |
| DashboardScenarios.DeniedGeolocation | src/components/weather-dashboard.jsx:141-143 | a denied position on a fresh dashboard fetches London, exactly two requests, and shows London's weather |
| DashboardScenarios.NoKeySession | src/components/weather-dashboard.jsx:84 | without a key, mount, typing, a fired timer and a search make no request at all and leave the missing-key error showing |

## Left out

- Network calls: URLs, query-string encoding, `units=metric` and the `limit=5`/`limit=1` parameters are not modelled. Each call's outcome is a parameter, and the model does not bound how many places a search returns.
- Overlapping requests: each `await` chain is one atomic transition. Races between concurrent fetches or searches, and a response arriving after a later one, are not modelled.
- Timer durations: the 300 ms debounce and the 200 ms blur delay are not modelled, only which timers are pending. Firing order is up to the caller of the model.
- The debounce effect's run at mount: it sees the empty initial input and clears an already empty, hidden list, so it changes nothing. It is not a separate transition.
- Geolocation is an input (`Geolocation`): unsupported, the error callback, or a position. The permission prompt is not modelled.
- Console logging is not modelled.
- Rendering: markup, styling, animations (framer-motion), the scroll area and the order of the weather panels are not modelled. The rendered choice is modelled as `Screen`, the tiles as `Tile` and the rows as `Row`.
- Floating point: `Math.round` of temperatures and every displayed number (wind, humidity, pressure) are not modelled. Temperatures are not carried in `Payload`.
- Locale formatting: `toLocaleTimeString`, `toLocaleDateString` and `toDateString` in the local time zone are not modelled. The calendar day of a timestamp is the parameter `dayOf`.
- `days` in the daily grouping is a map from day text to `true`. Keys that collide with inherited `Object.prototype` properties are not modelled; `toDateString` never produces such keys.
- weather-details.jsx and src/app/page.tsx only display values, and are not part of this model.
- CurrentWeather.Render, HourlyForecast.Render, DailyForecast.Render: these require that each entry they read has a first condition (`weather[0]`). The components would throw on an entry without one; the model does not have that error path.
- No scenario drives a click on a literal suggestion through the class. `DashboardProperties.SelectionFetchesName` states what a click does, for every state and row.

## Findings

| source | as written | input that shows it | evidently intended | confidence | as-written member | corrected member |
|---|---|---|---|---|---|---|
| src/components/loading-weather.jsx:7-12, src/components/weather-dashboard.jsx:208-226 | `LoadingWeather` is rendered only while `loading` is true, and each error is set together with `loading` false, so its API-key help branch can never show | no API key configured, or the provider answers 401: the dashboard shows only the bare error line | show the key-help panel whenever the error text mentions the API key | not executed | DashboardProperties.KeyHelpUnreachableAsWritten | DashboardProperties.MissingKeyShowsKeyHelp |

`Dashboard.ScreenAsWritten` is the rendering choice as written, and
`DashboardProperties.MissingKeyAsWritten` shows the bare line for the missing
key. `Dashboard.Display` is the corrected choice:
`DashboardProperties.DisplayModes` and
`DashboardProperties.UnauthorizedShowsKeyHelp` are proved about it.
