/** The icon table, the day-part choice of an icon file and the local clock
    of the generation wired into the binary (src/weather.rs). */
module Weather {
  import opened Wrappers
  import opened Conditions

  /** `WeatherIcon`: a file for the day and optional evening and night variants. */
  datatype WeatherIcon = WeatherIcon(day: string, evening: Option<string>, night: Option<string>)

  /** `WeatherIcon::default()`: the same fallback file at every hour. */
  function DefaultIcon(): (icon: WeatherIcon)
    ensures forall h :: 0 <= h < 24 ==> IconName(icon, h) == "default.png"
  {
    WeatherIcon("default.png", Some("default.png"), Some("default.png"))
  }

  /** `WeatherIcon::get_icon_name`: 8-17 is day, 18-22 evening, 0-7 and 23 night;
      a missing evening or night variant falls back to the day file, so the
      name is always one of the icon's own files. */
  function IconName(icon: WeatherIcon, hour: nat): (name: string)
    requires hour < 24
    ensures 8 <= hour <= 17 ==> name == icon.day
    ensures 18 <= hour <= 22 ==> name == (if icon.evening.Some? then icon.evening.value else icon.day)
    ensures (hour <= 7 || hour == 23) ==> name == (if icon.night.Some? then icon.night.value else icon.day)
    ensures name == icon.day || Some(name) == icon.evening || Some(name) == icon.night
  {
    if 8 <= hour <= 17 then icon.day
    else if 17 < hour <= 22 then icon.evening.GetOr(icon.day)
    else icon.night.GetOr(icon.day)
  }

  /** `WeatherDescription::get_icon`: six groups have an icon, the rest none. */
  function GetIcon(d: WeatherDescription): (icon: Option<WeatherIcon>)
    ensures icon.Some? <==> d in {Rain, Clear, Clouds, Fog, Snow, Thunderstorm}
  {
    match d
    case Rain => Some(WeatherIcon("rain.png", None, None))
    case Clear => Some(WeatherIcon("clear_day.png", Some("clear_evening.png"), Some("clear_night.png")))
    case Clouds => Some(WeatherIcon("cloud_day.png", None, Some("cloud_night.png")))
    case Fog => Some(WeatherIcon("fog.png", None, None))
    case Snow => Some(WeatherIcon("snow.png", None, None))
    case Thunderstorm => Some(WeatherIcon("thunder_day.png", None, Some("thunder_night.png")))
    case _ => None
  }

  /** Every icon file the program ships. */
  const IconFiles: set<string> := {
    "default.png", "rain.png", "fog.png", "snow.png",
    "clear_day.png", "clear_evening.png", "clear_night.png",
    "cloud_day.png", "cloud_night.png", "thunder_day.png", "thunder_night.png"}

  /** The file the weather screen shows: `get_icon().unwrap_or_default()` then
      `get_icon_name` at the local hour. */
  function ShownIcon(d: WeatherDescription, hour: nat): (name: string)
    requires hour < 24
    ensures name in IconFiles
    ensures GetIcon(d).None? ==> name == "default.png"
  {
    IconName(GetIcon(d).GetOr(DefaultIcon()), hour)
  }

  /** Rain, fog and snow have no evening or night file: the same icon all day. */
  lemma DayOnlyIcons(d: WeatherDescription, h1: nat, h2: nat)
    requires d in {Rain, Fog, Snow} && h1 < 24 && h2 < 24
    ensures ShownIcon(d, h1) == ShownIcon(d, h2)
    ensures ShownIcon(d, h1) == (if d == Rain then "rain.png" else if d == Fog then "fog.png" else "snow.png")
  {
  }

  /** The nine groups without an icon show `default.png` at every hour. */
  lemma DefaultForOtherGroups(d: WeatherDescription, hour: nat)
    requires hour < 24 && d !in {Rain, Clear, Clouds, Fog, Snow, Thunderstorm}
    ensures ShownIcon(d, hour) == "default.png"
  {
  }

  /** Clear sky has three files; clouds and thunderstorms fall back to their day
      file in the evening. */
  lemma DayPartIcons(hour: nat)
    requires hour < 24
    ensures ShownIcon(Clear, hour) == (if 8 <= hour <= 17 then "clear_day.png"
                                       else if 18 <= hour <= 22 then "clear_evening.png"
                                       else "clear_night.png")
    ensures ShownIcon(Clouds, hour) == (if 8 <= hour <= 22 then "cloud_day.png" else "cloud_night.png")
    ensures ShownIcon(Thunderstorm, hour) == (if 8 <= hour <= 22 then "thunder_day.png" else "thunder_night.png")
  {
  }

  /** The span of Unix timestamps the date library can represent. */
  datatype TimestampRange = TimestampRange(lo: int, hi: int)

  /** `get_time(time, timezone).hour()`: the local hour of a Unix timestamp.
      A timestamp outside `range` becomes the epoch (`unwrap_or_default`); an
      offset of a whole day or more is `None`, the panic of `east_opt(..).unwrap()`. */
  function LocalHour(time: int, timezone: int, range: TimestampRange): (hour: Option<nat>)
    ensures hour.Some? <==> -86400 < timezone < 86400
    ensures hour.Some? ==> hour.value < 24
    ensures hour.Some? && range.lo <= time <= range.hi ==>
              3600 * hour.value <= (time + timezone) % 86400 < 3600 * (hour.value + 1)
  {
    var utc := if range.lo <= time <= range.hi then time else 0;
    if -86400 < timezone < 86400 then Some(((utc + timezone) % 86400) / 3600) else None
  }

  /** The local hour depends only on the instant modulo whole days. */
  lemma LocalHourDaily(time: int, timezone: int, range: TimestampRange)
    requires range.lo <= time && time + 86400 <= range.hi
    ensures LocalHour(time + 86400, timezone, range) == LocalHour(time, timezone, range)
  {
    var a := time + timezone;
    assert (a + 86400) % 86400 == a % 86400;
  }

  /** An unrepresentable timestamp shows the epoch's local hour. */
  lemma LocalHourOutOfRange(time: int, timezone: int, range: TimestampRange)
    requires time < range.lo || range.hi < time
    requires range.lo <= 0 <= range.hi
    ensures LocalHour(time, timezone, range) == LocalHour(0, timezone, range)
  {
  }

  /** Moscow time (UTC+3) at 07:00 UTC is 10:00 local: a clear sky shows the
      day icon with the text "ясно". */
  lemma ClearMorningScenario(range: TimestampRange)
    requires range.lo <= 25200 <= range.hi
    ensures LocalHour(25200, 10800, range) == Some(10)
    ensures ShownIcon(Clear, 10) == "clear_day.png" && Describe(800) == "ясно"
  {
  }
}
