/** The current-conditions card: icon choice and the fields it shows. */
module CurrentWeather {
  import opened Wrappers
  import opened Payload
  import opened Conditions

  /** `getWeatherIcon`: the if-chain over condition-code ranges. */
  function IconFor(weatherId: int): (c: Category)
    ensures Band(c, weatherId)
  {
    if weatherId >= 200 && weatherId < 300 then Lightning
    else if weatherId >= 300 && weatherId < 400 then Drizzle
    else if weatherId >= 500 && weatherId < 600 then Rain
    else if weatherId >= 600 && weatherId < 700 then Snow
    else if weatherId >= 700 && weatherId < 800 then Fog
    else if weatherId == 800 then Sun
    else Cloud
  }

  /** What the card shows, apart from the rounded temperatures. */
  datatype Card = Card(location: string, description: string, icon: Category)

  /** Nothing when there is no data; otherwise the card for the first condition. */
  function Render(data: Option<CurrentConditions>, location: string): (card: Option<Card>)
    requires data.Some? ==> |data.value.conditions| > 0
    ensures card.None? <==> data.None?
    ensures card.Some? ==>
      && card.value.location == location
      && card.value.description == data.value.conditions[0].description
      && Band(card.value.icon, data.value.conditions[0].id)
  {
    match data
    case None => None
    case Some(d) => Some(Card(location, d.conditions[0].description, IconFor(d.conditions[0].id)))
  }
}
