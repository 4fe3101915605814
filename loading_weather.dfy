/** The placeholder panel: either the API-key help or the spinner. */
module LoadingWeather {
  import opened Wrappers
  import opened Text

  const KeyMarker: string := "API key"

  datatype Panel = KeyHelp(message: string) | Spinner

  /** `error && error.includes("API key")` picks the key help, showing the error text. */
  function Choose(error: Option<string>): (p: Panel)
    ensures p.KeyHelp? <==> error.Some? && Occurs(KeyMarker, error.value)
    ensures p.KeyHelp? ==> p.message == error.value
  {
    if error.Some? && error.value != "" && Includes(error.value, KeyMarker) then
      IncludesIsOccurs(error.value, KeyMarker);
      KeyHelp(error.value)
    else
      (if error.Some? then IncludesIsOccurs(error.value, KeyMarker); Spinner else Spinner)
  }
}
