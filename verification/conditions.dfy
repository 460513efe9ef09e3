/** Weather condition codes and their Russian descriptions. `WeatherMeta::get_descr`
    and `WeatherDescription` are the same in src/weather.rs and src/api.rs. */
module Conditions {

  /** `WeatherDescription`: the `main` group name of a weather condition. */
  datatype WeatherDescription =
    | Thunderstorm | Drizzle | Rain | Snow | Mist | Smoke | Haze | Dust
    | Fog | Sand | Ash | Squall | Tornado | Clear | Clouds

  /** The text shown for every code the table does not list. */
  const Unknown: string := "погода неизвестна"

  /** The codes the table lists; `613..623` is Rust's half-open range. */
  predicate Listed(id: int) {
    || id in {200, 201, 202, 210, 211, 212, 221, 230, 231, 232}
    || id in {300, 301, 302, 310, 311, 312, 313, 314, 321}
    || id in {500, 501, 502, 503, 504, 511, 520, 521, 522, 531}
    || id in {600, 601, 602, 611, 612} || 613 <= id < 623
    || id in {701, 711, 721, 731, 741, 751, 761, 762, 771, 781}
    || id in {800, 801, 802, 803, 804}
  }

  /** `WeatherMeta::get_descr`: total over all codes; a non-empty text, which is
      the "unknown" text exactly for the codes the table does not list. */
  function Describe(id: int): (d: string)
    ensures d != ""
    ensures d == Unknown <==> !Listed(id)
  {
    // Group 2xx: thunderstorm
    if id == 200 then "гроза с небольшим дождём"
    else if id == 201 then "гроза с дождём"
    else if id == 202 then "гроза с сильным дождём"
    else if id == 210 then "небольшая гроза"
    else if id == 211 then "гроза"
    else if id == 212 then "сильная гроза"
    else if id == 221 then "рваная гроза"
    else if id == 230 then "гроза с лёгким моросящим дождём"
    else if id == 231 then "гроза с моросящим дождём"
    else if id == 232 then "гроза с сильным моросящим дождём"
    // Group 3xx: drizzle
    else if id in {300, 310} then "небольшой моросящий дождь"
    else if id in {301, 311, 321} then "моросящий дождь"
    else if id in {302, 312} then "сильный моросящий дождь"
    else if id == 313 then "дождь и морось"
    else if id == 314 then "сильный моросящий ливень"
    // Group 5xx: rain
    else if id == 500 then "дождь"
    else if id == 501 then "умеренный дождь"
    else if id == 502 then "сильный дождь"
    else if id == 503 then "очень сильный дождь"
    else if id in {504, 522} then "сильный ливень"
    else if id == 511 then "ледяной дождь"
    else if id == 520 then "небольшой ливень"
    else if id == 521 then "ливень"
    else if id == 531 then "неровный дождь"
    // Group 6xx: snow
    else if id == 600 then "небольшой снег"
    else if id == 601 then "снег"
    else if id == 602 then "сильный снег"
    else if id == 611 then "дождь со снегом"
    else if id == 612 then "лёгкий дождь со снегом"
    else if 613 <= id < 623 then "снег с дождём"
    // Group 7xx: atmosphere
    else if id in {701, 741} then "туман"
    else if id == 711 then "дым"
    else if id == 721 then "дымка"
    else if id == 731 then "вихри песка/пыли"
    else if id == 751 then "песок"
    else if id == 761 then "пыль"
    else if id == 762 then "вулканический пепел"
    else if id == 771 then "шторм"
    else if id == 781 then "торнадо"
    // Group 800: clear; group 80x: clouds
    else if id == 800 then "ясно"
    else if id == 801 then "небольшая облачность"
    else if id == 802 then "рассеянные облака"
    else if id == 803 then "средняя облачность"
    else if id == 804 then "пасмурно"
    else Unknown
  }

  /** Rust's `613..623` excludes its upper end: 622 is described, 623 is not. */
  lemma SnowRangeExcludes623()
    ensures Describe(613) == "снег с дождём" && Describe(622) == "снег с дождём"
    ensures Describe(623) == Unknown
  {
  }

  /** Inside the thunderstorm block 200-232 only the ten listed codes have a
      text of their own; the gaps between them are unknown. */
  lemma ThunderstormBlock(id: int)
    requires 200 <= id <= 232
    ensures Describe(id) != Unknown <==> id in {200, 201, 202, 210, 211, 212, 221, 230, 231, 232}
  {
  }
}
