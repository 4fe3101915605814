/** The hourly strip: the next eight 3-hour samples. */
module HourlyForecast {
  import opened Wrappers
  import opened Payload
  import opened Conditions
  import opened Seqs
  import CurrentWeather

  /** This panel's own copy of `getWeatherIcon`. */
  function IconFor(weatherId: int): (c: Category)
    ensures Band(c, weatherId)
  {
    if weatherId >= 200 && weatherId < 300 then Lightning
    else if weatherId >= 300 && weatherId < 400 then Drizzle
    else if weatherId >= 500 && weatherId < 600 then Rain
    else if weatherId >= 600 && weatherId < 700 then Snow
    else if weatherId >= 700 && weatherId < 800 then Fog
    else if weatherId == 800 then Sun
    else Cloud
  }

  /** The copy agrees with the current-conditions card on every code. */
  lemma IconMatchesCurrent(weatherId: int)
    ensures IconFor(weatherId) == CurrentWeather.IconFor(weatherId)
  {
    BandDetermines(weatherId, IconFor(weatherId), CurrentWeather.IconFor(weatherId));
  }

  /** Nothing without data or a list; otherwise the first eight entries, in order. */
  function Select(data: Option<Forecast>): (shown: Option<seq<Entry>>)
    ensures shown.None? <==> data.None? || data.value.list.None?
    ensures shown.Some? ==>
      var list := data.value.list.value;
      && |shown.value| == Min(8, |list|)
      && forall i :: 0 <= i < |shown.value| ==> shown.value[i] == list[i]
  {
    if data.None? || data.value.list.None? then None
    else Some(Take(data.value.list.value, 8))
  }

  /** One tile of the strip: its key `dt` and its icon. */
  datatype Tile = Tile(dt: int, icon: Category)

  function Render(data: Option<Forecast>): (tiles: Option<seq<Tile>>)
    requires data.Some? && data.value.list.Some? ==> AllHaveCondition(data.value.list.value)
    ensures tiles.None? <==> data.None? || data.value.list.None?
    ensures tiles.Some? ==>
      var list := data.value.list.value;
      && |tiles.value| == Min(8, |list|)
      && forall i :: 0 <= i < |tiles.value| ==>
           tiles.value[i].dt == list[i].dt && Band(tiles.value[i].icon, list[i].conditions[0].id)
  {
    match Select(data)
    case None => None
    case Some(shown) =>
      assert forall i :: 0 <= i < |shown| ==> HasCondition(shown[i]);
      Some(seq(|shown|, i requires 0 <= i < |shown| =>
        Tile(shown[i].dt, IconFor(shown[i].conditions[0].id))))
  }
}
