/**
 * The JSON shapes the weather provider returns, reduced to the fields the
 * dashboard's logic reads. Temperatures, wind, pressure and sunrise/sunset are
 * only formatted for display and are not carried.
 */
module Payload {
  import opened Wrappers

  /** One entry of a `weather` array: the condition code and its description. */
  datatype Condition = Condition(id: int, description: string)

  /** Current-conditions response; `conditions` is its `weather` array. */
  datatype CurrentConditions = CurrentConditions(conditions: seq<Condition>)

  /** One 3-hour forecast sample: epoch seconds `dt` and its `weather` array. */
  datatype Entry = Entry(dt: int, conditions: seq<Condition>)

  /** Forecast response; `list` may be absent. */
  datatype Forecast = Forecast(list: Option<seq<Entry>>)

  /** One row of a place-search or reverse-geocoding response. */
  datatype Place = Place(name: string, state: Option<string>, country: string, lat: real, lon: real)

  /** The components read `weather[0].id`, so an entry needs a first condition. */
  predicate HasCondition(e: Entry)
  {
    |e.conditions| > 0
  }

  predicate AllHaveCondition(list: seq<Entry>)
  {
    forall i :: 0 <= i < |list| ==> HasCondition(list[i])
  }
}
