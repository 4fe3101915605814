/**
 * The icon categories the forecast panels draw for an OpenWeather condition
 * code, with an independent description of which codes belong to which.
 */
module Conditions {

  datatype Category = Lightning | Drizzle | Rain | Snow | Fog | Sun | Cloud

  /** The codes drawn with each icon, stated category by category. */
  predicate Band(c: Category, id: int)
  {
    match c
    case Lightning => 200 <= id < 300
    case Drizzle => 300 <= id < 400
    case Rain => 500 <= id < 600
    case Snow => 600 <= id < 700
    case Fog => 700 <= id < 800
    case Sun => id == 800
    case Cloud => id < 200 || 400 <= id < 500 || 800 < id
  }

  /** Every code lies in exactly one band. */
  lemma BandsPartition(id: int)
    ensures exists c :: Band(c, id)
    ensures forall c1, c2 :: Band(c1, id) && Band(c2, id) ==> c1 == c2
  {
    if id < 200 || 400 <= id < 500 || 800 < id { assert Band(Cloud, id); }
    else if id < 300 { assert Band(Lightning, id); }
    else if id < 400 { assert Band(Drizzle, id); }
    else if id < 600 { assert Band(Rain, id); }
    else if id < 700 { assert Band(Snow, id); }
    else if id < 800 { assert Band(Fog, id); }
    else { assert Band(Sun, id); }
  }

  /** Two icon choices that both respect the bands agree on every code. */
  lemma BandDetermines(id: int, c1: Category, c2: Category)
    requires Band(c1, id) && Band(c2, id)
    ensures c1 == c2
  {
    BandsPartition(id);
  }
}
