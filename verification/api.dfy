/** The newer generation of day-parts and icon keys (src/api.rs). Its
    `format_url`, `WeatherMeta::get_descr` and `WeatherDescription` are the ones
    of modules `Query` and `Conditions`. */
module Api {
  import opened Coords
  import opened Conditions
  import opened Wrappers
  import Geo
  import Weather

  /** `Time`: the coarse part of the day an icon is chosen for. */
  datatype DayPart = Evening | Day | Night

  /** `Time::get`, on the local hour: 9-19 is day, 6-8 evening, the rest night. */
  function DayPartOf(h: nat): (p: DayPart)
    requires h < 24
    ensures p == Day <==> 9 <= h <= 19
    ensures p == Evening <==> 6 <= h <= 8
    ensures p == Night <==> h <= 5 || 20 <= h
  {
    if h >= 9 && h < 20 then Day
    else if h < 9 && h > 5 then Evening
    else Night
  }

  /** The two generations draw the day differently: 8 o'clock is day for
      `get_icon_name` but evening here, 18 and 19 o'clock the other way round. */
  lemma GenerationsDisagree()
    ensures Weather.IconName(Weather.WeatherIcon("d", Some("e"), Some("n")), 8) == "d" && DayPartOf(8) == Evening
    ensures Weather.IconName(Weather.WeatherIcon("d", Some("e"), Some("n")), 18) == "e" && DayPartOf(18) == Day
    ensures Weather.IconName(Weather.WeatherIcon("d", Some("e"), Some("n")), 5) == "n" && DayPartOf(5) == Night
  {
  }

  /** The codes `get_icon` has an arm for. */
  predicate HasIcon(id: int) {
    || 200 <= id <= 232 || 300 <= id <= 314 || 500 <= id <= 531 || 600 <= id <= 623
    || id in {701, 711, 721, 731, 741, 771} || 800 <= id <= 804
  }

  /** `WeatherMeta::get_icon` once the day-part is known: total, and `"default"`
      exactly for the codes without an arm. */
  function IconKey(id: int, part: DayPart): (key: string)
    ensures key != ""
    ensures key == "default" <==> !HasIcon(id)
  {
    if 200 <= id <= 232 then (if part == Night then "thunder_night" else "thunder_day")
    else if 300 <= id <= 314 || 501 <= id <= 531 then "rain"
    else if id == 500 then "rain-500"
    else if 600 <= id <= 623 then "snow"
    else if id in {701, 741, 711, 721} then "fog"
    else if id in {731, 771} then (if part == Night then "wind_night" else "wind_day")
    else if id == 800 then (match part case Day => "clear_day" case Evening => "clear_evening" case Night => "clear_night")
    else if 801 <= id <= 803 then (if part == Night then "cloud_night-801" else "cloud_day-801")
    else if id == 804 then (if part == Night then "cloud_night" else "cloud_day")
    else "default"
  }

  /** `WeatherMeta::get_icon(time)`: the icon key at the given local hour. */
  function Icon(id: int, hour: nat): (key: string)
    requires hour < 24
    ensures key == "default" <==> !HasIcon(id)
    ensures id == 800 ==> && (key == "clear_day" <==> 9 <= hour <= 19)
                          && (key == "clear_evening" <==> 6 <= hour <= 8)
                          && (key == "clear_night" <==> hour <= 5 || 20 <= hour)
  {
    IconKey(id, DayPartOf(hour))
  }

  /** Thunderstorm icons depend only on the day-part, never on the exact code. */
  lemma ThunderIcons(id: int, id': int, hour: nat)
    requires 200 <= id <= 232 && 200 <= id' <= 232 && hour < 24
    ensures Icon(id, hour) == Icon(id', hour)
    ensures Icon(id, hour) == (if DayPartOf(hour) == Night then "thunder_night" else "thunder_day")
  {
  }

  /** Rain, snow and fog keys ignore the day-part. */
  lemma DayPartInvariantIcons(id: int, p: DayPart, q: DayPart)
    requires 300 <= id <= 314 || 500 <= id <= 531 || 600 <= id <= 623 || id in {701, 711, 721, 741}
    ensures IconKey(id, p) == IconKey(id, q)
    ensures IconKey(id, p) in {"rain", "rain-500", "snow", "fog"}
  {
  }

  /** Code 800 has a different icon in each day-part; 801-804 only tell the
      night from the rest. */
  lemma CloudIcons(id: int, p: DayPart, q: DayPart)
    requires 801 <= id <= 804
    ensures p != q ==> IconKey(800, p) != IconKey(800, q)
    ensures (IconKey(id, p) == IconKey(id, q)) <==> ((p == Night) == (q == Night))
  {
  }

  /** A code neither table lists has the default icon and the unknown text. */
  lemma UnlistedCodes(id: int, p: DayPart)
    requires !HasIcon(id) && !Listed(id)
    ensures IconKey(id, p) == "default" && Describe(id) == Unknown
  {
  }

  /** The icon table and the description table disagree. These codes get an
      icon of their group but the unknown text: the gaps of 200-232, 303-309,
      the gaps of 500-531, 603-610 and 623. */
  lemma IconButUnknownText(id: int, p: DayPart)
    ensures (IconKey(id, p) != "default" && Describe(id) == Unknown)
            <==> (|| 203 <= id <= 209 || 213 <= id <= 220 || 222 <= id <= 229
                  || 303 <= id <= 309
                  || 505 <= id <= 510 || 512 <= id <= 519 || 523 <= id <= 530
                  || 603 <= id <= 610 || id == 623)
  {
  }

  /** ... and these get a text but the default icon. */
  lemma TextButDefaultIcon(id: int, p: DayPart)
    ensures (IconKey(id, p) == "default" && Describe(id) != Unknown) <==> id in {321, 751, 761, 762, 781}
  {
  }

  /** `Location::from_geo`: exactly the coordinates of the geocoding entry. */
  function FromGeo(geo: Geo.LocationInfo): (loc: Location)
    ensures loc.lat == geo.lat && loc.lon == geo.lon
  {
    Location(geo.lat, geo.lon)
  }
}
