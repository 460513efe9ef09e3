# Ice weather kiosk — a Dafny model of its deterministic core

Ice is a single-window weather kiosk for small ARM boards. It shows the current
weather for a configured place and refreshes it from OpenWeatherMap. This
project models the part of it that is pure logic around the network and GUI
calls, and proves properties of that model:

- **the window's state machine** (`src/ui.rs`). The `Ice` struct becomes the
  class `Ui.Ice`. Its `update` becomes `Ui.Ice.Update`, which assigns the
  fields in place and re-enters itself for `LocationSelected`, as the source
  does. Instead of running async code it returns a `Ui.Task` (fetch weather,
  geocode a name, move focus, exit). `Ui.Step` states the same transition as
  a function of the old state; the lemmas about `update` are lemmas about
  `Ui.Step`. `subscription` becomes `Ui.Ice.Subscriptions`.
- **the condition-code tables and day-part rules** of both generations:
  - `src/weather.rs` is the generation wired into the binary. It is modelled
    by `Conditions.Describe` and the module `Weather` (icon files, hours 8-17
    day, 18-22 evening, the rest night, and the local hour from `get_time`).
  - `src/api.rs` is the newer generation, modelled by the module `Api`
    (icon keys, hours 9-19 day, 6-8 evening, the rest night).
  - `get_descr` is character-for-character the same in both files
    (src/weather.rs:149-212 and src/api.rs:62-125), and so is the
    `WeatherDescription` enum (src/weather.rs:216-232 and src/api.rs:181-197),
    so both are modelled once, in `Conditions`.
- **`format_url`** (`Query.FormatUrl`, a loop and then a `pop`). It is the same
  function in src/weather.rs:16-31 and src/api.rs:14-29. The geocoding query
  list of `src/api/geocoding.rs` is modelled in `Geocoding`.
- **location names** (`Geo`): `LocationName::from_str` and its `Display`, and
  `LocationInfo` with its `to_string`, `eq` and `ne`. The struct in
  src/api/geocoding.rs:33-63 has the same fields and the same three functions
  as the one in src/geo.rs:120-150, so one `Geo.LocationInfo` serves both.
- **small conversions**: `Time::from_secs` and its `Display` (`Time`), and the
  unit labels (`Units`).

`f32` coordinates are kept as their bit patterns (`Coords.F32`) and an iced
`Theme` as an opaque name. Both are only ever copied. Strings are `seq<char>`.

## Behaviour worth knowing

- A failed weather fetch **clears** the weather shown (src/ui.rs:239); no
  stale data is kept (`Ui.WeatherResult`).
- A search falls back to "Dzerzhinsk" only when the text has four or more
  comma-separated pieces (src/ui.rs:226-227). An empty text is searched as an
  empty city name, and empty middle pieces are kept as `Some("")`
  (`Ui.SearchFallback`, `Geo.EmptyPiecesKept`).
- The weather request is issued for whatever coordinates the configuration
  holds, (0, 0) by default. No code raises an "unknown location" error.
- The two generations use different hour boundaries, and the generation the
  binary runs is the 8-17 / 18-22 one (`Api.GenerationsDisagree`).
- `update` never detects the location from the IP address, and nothing
  tracks which fetch was started last. Each `WeatherDataReceived` simply
  overwrites the state when it arrives.

## Model

| member | source | states |
|---|---|---|
| `Units.Default` | src/units.rs:5-13 | the default unit system is metric, sent as `"metric"` |
| `Units.Name` | src/units.rs:15-23 | every unit system has a non-empty query value |
| `Units.NameRoundTrip` | src/units.rs:5-23 | `to_string` gives back the serde name of the variant, so the name determines the variant |
| `Units.NameInjective` | src/units.rs:15-23 | two unit systems have the same name exactly when they are equal |
| `Units.Label` | src/units.rs:30-43 | degrees are °F/°C and speed km/h/m/s for imperial/metric |
| `Units.LabelInjective` | src/units.rs:30-43 | the four labels are pairwise distinct |
| `Time.FromSecs` | src/time.rs:13-24 | hours are the whole hours modulo 65536, minutes the whole minutes within the hour, seconds the seconds within the minute |
| `Time.FromSecsRoundTrip` | src/time.rs:13-24 | below 65536 hours, minutes and seconds are below 60 and `hours*3600 + mins*60 + secs` is the input |
| `Time.FromSecsTruncatesHours` | src/time.rs:15 | from 65536 hours on, the `as u16` cast drops whole multiples of 65536 hours and the fields add up to less than the input |
| `Time.FromSecsWrapping` | src/time.rs:13-24 | the code as written with wrapping `u16` arithmetic gives the same result as `FromSecs` for every `u32` input |
| `Time.FromSecsChecked` | src/time.rs:13-24 | the code as written with overflow checks converts every uptime below 19 h, and whatever it converts has fewer than 19 hours and minutes and seconds below 60 |
| `Time.CheckedPanicsFrom19Hours` | src/time.rs:17 | with overflow checks the conversion panics exactly when the hour field is 19 or more; otherwise it agrees with `FromSecs` |
| `Time.CheckedPanicsAt68400` | src/time.rs:17 | 68399 s still converts; 68400 s (19 h) panics with overflow checks, though the intended result is 19:00:00 |
| `Time.Decimal` | src/time.rs:32-36 | an integer prints as a non-empty digit string without leading zeros |
| `Time.DecimalRoundTrip` | src/time.rs:32-36 | the printed digits read back as the number |
| `Time.PaddedTwoDigits` | src/time.rs:33-36 | a value below 100 with its conditional `"0"` prints as exactly two digits reading back as the value |
| `Time.Show` | src/time.rs:27-39 | the label holds only digits and colons; with minutes and seconds below 60 it is the hour digits followed by `:MM:SS` |
| `Time.ShowRoundTrip` | src/time.rs:27-39 | with minutes and seconds below 60, `H:MM:SS` parses back to the same hours, minutes and seconds |
| `Time.ShowFromSecs` | src/time.rs:13-39 | below 65536 hours the printed uptime reads back as the uptime in seconds |
| `Query.FormatUrl` | src/weather.rs:16-31 | the loop's result is the reference URL `Query.Url`: with parameters the URL is the base followed by the `k=v` fields joined by `&`; with none it is the base minus its last character |
| `Query.TerminatedIsJoinedPlusAmp` | src/weather.rs:25-28 | the loop leaves exactly one `&` too many, which the `pop` removes |
| `Query.FormatUrlTest` | src/api.rs:244-251 | the unit test's two parameters give `https://pornhub.com?aa=bb&aaa=bbb` |
| `Query.FormatUrlNoItems` | src/weather.rs:28 | with no parameters one character of the base is lost, and an empty base stays empty |
| `Conditions.Describe` | src/weather.rs:148-212 | the description is total and non-empty, and it is the "unknown" text exactly for the codes the table does not list |
| `Conditions.SnowRangeExcludes623` | src/weather.rs:187 | `613..623` covers 613 to 622, and 623 is unknown |
| `Conditions.ThunderstormBlock` | src/weather.rs:151-161 | inside 200-232 exactly the ten listed codes have their own text |
| `Weather.IconName` | src/weather.rs:241-256 | hours 8-17 give the day file, 18-22 the evening file or else the day file, and 0-7 and 23 the night file or else the day file; the name is always one of the icon's own files |
| `Weather.DefaultIcon` | src/weather.rs:259-267 | the default icon names `default.png` at every hour |
| `Weather.GetIcon` | src/weather.rs:269-306 | exactly Rain, Clear, Clouds, Fog, Snow and Thunderstorm have an icon |
| `Weather.ShownIcon` | src/ui.rs:424 | the file shown is always one of the eleven shipped icon files, and `default.png` for a group without an icon |
| `Weather.DayOnlyIcons` | src/weather.rs:272-297 | rain, fog and snow show the same file at every hour |
| `Weather.DefaultForOtherGroups` | src/ui.rs:424 | the nine groups without an icon show `default.png` at every hour |
| `Weather.DayPartIcons` | src/weather.rs:278-302 | clear sky has three files by hour; clouds and thunderstorms keep their day file in the evening |
| `Weather.LocalHour` | src/weather.rs:35-43 | the local hour exists exactly when the offset is less than a day either way; it is then below 24 and, for a representable timestamp, the hour of the day in which the local second-of-day falls |
| `Weather.LocalHourDaily` | src/weather.rs:35-43 | the local hour repeats every 86400 seconds |
| `Weather.LocalHourOutOfRange` | src/weather.rs:36-37 | an unrepresentable timestamp shows the epoch's local hour |
| `Weather.ClearMorningScenario` | src/ui.rs:424-426 | 07:00 UTC at UTC+3 is 10 o'clock local, when a clear sky shows `clear_day.png` and "ясно" |
| `Api.DayPartOf` | src/api.rs:167-178 | hours 9-19 are day, 6-8 evening, 0-5 and 20-23 night, and each hour is in exactly one part |
| `Api.GenerationsDisagree` | src/api.rs:168-177 | 8 o'clock is day for the wired generation but evening here; 18 o'clock is evening there but day here |
| `Api.IconKey` | src/api.rs:127-157 | the icon key is total and non-empty, and it is `"default"` exactly for codes without an arm |
| `Api.Icon` | src/api.rs:127-157 | the key at a local hour is `"default"` exactly for codes without an arm; for code 800 it is `clear_day` exactly at 9-19, `clear_evening` exactly at 6-8 and `clear_night` exactly at 0-5 and 20-23 |
| `Api.ThunderIcons` | src/api.rs:130-133 | in 200-232 the key depends only on the day-part: night gives `thunder_night`, otherwise `thunder_day` |
| `Api.DayPartInvariantIcons` | src/api.rs:134-137 | rain, snow and fog codes have the same key in every day-part |
| `Api.CloudIcons` | src/api.rs:142-154 | code 800 has a distinct key per day-part; 801-804 only tell night from the rest |
| `Api.UnlistedCodes` | src/api.rs:123-155 | a code in neither table has key `"default"` and the unknown text |
| `Api.IconButUnknownText` | src/api.rs:77-136 | exactly the gaps of 200-232, 303-309, the gaps of 500-531, 603-610 and 623 have a group icon but the unknown text |
| `Api.TextButDefaultIcon` | src/api.rs:78-155 | exactly 321, 751, 761, 762 and 781 have a text but the default icon |
| `Api.FromGeo` | src/api.rs:37-44 | the location has exactly the entry's latitude and longitude |
| `Geocoding.Params` | src/api/geocoding.rs:20-30 | the request parameters are `q`, `limit=5` and `appid`, in that order |
| `Geocoding.RequestUrl` | src/api/geocoding.rs:9-30 | the request URL is the endpoint followed by `q=<place>&limit=5&appid=<key>` |
| `Geo.Split` | src/geo.rs:43 | splitting on `,` gives one more piece than there are commas |
| `Geo.JoinSplit` | src/geo.rs:43 | joining the pieces with commas gives the input back |
| `Geo.SplitJoin` | src/geo.rs:43 | splitting comma-free pieces joined with commas gives the same pieces |
| `Geo.New` | src/geo.rs:24-30 | a new name has the city and neither state nor country |
| `Geo.SetState` | src/geo.rs:32-35 | sets the state and leaves city and country alone |
| `Geo.SetCountry` | src/geo.rs:37-40 | sets the country and leaves city and state alone |
| `Geo.FromStr` | src/geo.rs:42-64 | a name is produced exactly when the text has at most two commas, and never a country without a state |
| `Geo.Show` | src/geo.rs:67-80 | the printed name starts with the city, and a well-formed name prints with one comma fewer than it has pieces |
| `Geo.FromStrThenShow` | src/geo.rs:42-80 | whatever `from_str` accepts, `Display` prints back unchanged |
| `Geo.ShowThenFromStr` | src/geo.rs:42-80 | a name without commas in its fields, whose country comes with a state, parses back from its printed form |
| `Geo.FromStrMatchesBuilders` | src/geo.rs:24-64 | one, two and three pieces give the same value as `new`, `set_state` and `set_country` |
| `Geo.EmptyPiecesKept` | src/geo.rs:43-61 | `"Dzerzhinsk,,Russia"` has state `Some("")`, `""` is the empty city, and four pieces are refused |
| `Geo.Label` | src/geo.rs:130-138 | the label starts with `name (` and ends with `country)` |
| `Geo.Eq` | src/geo.rs:140-143 | equal entries have equal labels |
| `Geo.Ne` | src/geo.rs:144-148 | `ne` is exactly the negation of `eq` |
| `Geo.EqIsEquivalence` | src/api/geocoding.rs:53-63 | `eq` is reflexive, symmetric and transitive |
| `Geo.EqIgnoresCoordinates` | src/geo.rs:140-143 | changing coordinates or local names changes neither equality nor the label |
| `Geo.DistinctEntriesShareLabel` | src/geo.rs:130-138 | two unequal entries can print the same `name (state, country)` label |
| `Ui.DefaultConf` | src/conf.rs:9-19 | the default configuration is metric, with an empty key and coordinates (0, 0) |
| `Ui.Initial` | src/ui.rs:78-105 | start-up uses the parsed configuration, or the default one with the parse error shown, and has the dark theme, no dialog, no weather, no candidates, no selection and zero uptime |
| `Ui.Toggle` | src/ui.rs:177-182 | the result shows a dialog exactly when none was shown, and then it is the requested one |
| `Ui.RefreshEvery` | src/ui.rs:166-173 | the interval is 1 s exactly when there is no weather and 600 s exactly when there is |
| `Ui.SearchTarget` | src/ui.rs:226-227 | with at most two commas the place looked up prints back as the typed text; with more it is "Dzerzhinsk" |
| `Ui.Step` | src/ui.rs:190-326 | no message changes the units; only `APIKeyChanged` changes the key and only `ThemeChanged` the theme; only a weather result changes the weather |
| `Ui.Ice.constructor` | src/ui.rs:78-105 | the new window's fields are `Ui.Initial` |
| `Ui.Ice.Subscriptions` | src/ui.rs:162-175 | all events, a 1 s uptime tick, and a refresh every 1 s while there is no weather and every 600 s once there is |
| `Ui.Ice.SetModalWin` | src/ui.rs:177-182 | opens the dialog when none is shown, closes any shown dialog, and changes no other field |
| `Ui.Ice.Update` | src/ui.rs:190-326 | the new fields and the returned task are those of `Ui.Step` for the old fields |
| `Ui.DialogButtons` | src/ui.rs:196-273 | each dialog button opens its dialog when none is shown and otherwise closes the shown one, changing nothing else |
| `Ui.AboutClosesSettings` | src/ui.rs:262-265 | pressing About while Settings is open leaves no dialog open |
| `Ui.WeatherResult` | src/ui.rs:238-242 | a weather result sets the weather and the error and nothing else, so a failure discards shown weather; applying it twice equals once |
| `Ui.ResultSetsRefreshInterval` | src/ui.rs:166-173 | after a weather result the refresh interval is 600 s on success and 1 s on failure |
| `Ui.LocationResult` | src/ui.rs:243-247 | a geocoding result sets the candidate list and the error and nothing else |
| `Ui.SelectionRefreshes` | src/ui.rs:248-261 | selecting stores coordinates and choice, clears text and candidates, toggles the dialog, and starts the refresh task for the new coordinates |
| `Ui.FieldMessages` | src/ui.rs:287-298 | the tick adds exactly 1 to the uptime; key and theme changes overwrite only their own field; none starts a task |
| `Ui.UptimeMonotone` | src/ui.rs:287-290 | only the tick changes the uptime, by exactly one |
| `Ui.RefreshAndF5` | src/ui.rs:299-324 | the refresh button and F5 both start the metric weather fetch for the configured place and key; other events do nothing |
| `Ui.TaskStarters` | src/ui.rs:195-325 | a task is started exactly for the location dialog, refresh, search, selection, exit and F5 |
| `Ui.SearchFallback` | src/ui.rs:224-237 | a search geocodes the parsed text, or "Dzerzhinsk" only when the text has three or more commas; an empty text is an empty city |
| `Ui.SystemCalls` | src/ui.rs:274-285 | a failed reboot or power-off records `RestartSystem: <why>` or `PowerOffSystem: <why>`; success changes nothing |
| `Ui.StartupThenFirstWeather` | src/ui.rs:162-175 | at start-up the refresh runs every second, and after the first successful fetch every ten minutes |

## Left out

- Network requests are not modelled: `Weather::get`, `LocationName::get` (src/geo.rs:84-98), `API::get_request`, `Current::get`, `Daily::get` and `Location::get_by_ip`. They appear only as the `Ui.Task` that starts them and as the `(Option, Option<String>)` outcomes fed back as messages.
- JSON decoding (`from_json_value`) is not modelled. The `.unwrap()` on decoding at src/ui.rs:218 and 232 is taken to succeed, so its panic is not modelled.
- Rendering is not modelled: `view`, `weather_info`, `settings`, `location_selector`, `poweroff`, `about`, src/ui/widgets.rs and src/ui/modal.rs. Only the icon and text choice that `weather_info` makes is modelled (`Weather.ShownIcon`).
- `print_error_log` is not modelled, because it only writes to standard error.
- Floating-point arithmetic and formatting are not modelled: `floor`, the pressure conversion, and `f32::to_string` of the coordinates in the weather query. So `Ui.Task.FetchWeather` carries the location, key and units rather than the URL.
- chrono's `format("%H:%M")` is not modelled.
- Reading and writing the TOML configuration (src/conf.rs, src/config.rs) is not modelled. The result of `Conf::parse` is a parameter of `Ui.Initial` and `Ui.Ice.constructor`. `Conf` reuses `Units.Units`, because `conf::Units` is the same enum with the same names.
- The system calls in src/sys.rs are not modelled. The outcome of `reboot`/`poweroff` is a parameter of `Ui.Ice.Update`, and `exit_prog` becomes `Ui.Task.ExitProcess`.
- The NetworkManager calls in src/app/network.rs are not modelled.
- The timers themselves are not modelled, only the intervals `subscription` chooses.
- Ui.Ice.Update: the uptime is an unbounded `nat`. The `u32` overflow of `uptime += 1` after 2^32 ticks (about 136 years) is not modelled.
- Weather.LocalHour: the bounds of the timestamps chrono can represent are a parameter, since they belong to the library. Only the hour of the local time is modelled.
- Api.Icon: takes the local hour directly. The conversion of a `DateTime<Local>` to the machine's time zone is not modelled.
- Ui.Theme: a theme is an opaque name. The list of themes and their palettes are not modelled.

## Findings

| source | as written | input that shows it | evidently intended | confidence | as-written member | corrected member |
|---|---|---|---|---|---|---|
| src/time.rs:17 | `(3600 * hours) as u32` multiplies two `u16` values, which overflows once `hours` reaches 19 and panics in a build with overflow checks | an uptime of 68400 s (19 h), which the uptime label converts on every redraw | the product computed in `u32`, as on line 16 | high; not executed | `Time.FromSecsChecked` (shown by `Time.CheckedPanicsAt68400`) | `Time.FromSecs` (proved by `Time.FromSecsRoundTrip`) |

Without overflow checks the wrapped product is still correct, because the
error is a multiple of 65536 and the final `as u8` removes it
(`Time.FromSecsWrapping`). The uptime label is therefore right in release
builds.
