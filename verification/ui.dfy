/** The kiosk's single window: its state, the messages that change it and the
    tasks those messages start (src/ui.rs). Rendering is not modelled; network
    requests and system calls appear only as the tasks that start them and the
    outcomes fed back as messages. */
module Ui {
  import opened Wrappers
  import opened Coords
  import Units
  import Geo
  import Conditions

  /*********************************************************************
   *                         Values the window holds                   *
   *********************************************************************/

  /** `Conf`: units, API key and the location weather is fetched for. */
  datatype Conf = Conf(units: Units.Units, apiKey: string, location: Location)

  /** `Conf::default()`: metric units, no key, coordinates (0, 0). */
  function DefaultConf(): (c: Conf)
    ensures c.units == Units.Default() && c.apiKey == "" && c.location == Location(Zero, Zero)
  {
    Conf(Units.Metric, "", Location(Zero, Zero))
  }

  /** An appearance theme, only stored and handed back to the toolkit. */
  datatype Theme = Theme(name: string)

  const Dark: Theme := Theme("Dark")

  /** `ModalWindow`: the dialog shown over the weather area. */
  datatype ModalWindow = LocationSelector | About | Settings | PowerOff

  /** `WeatherMeta`: the condition code and its group. */
  datatype WeatherMeta = WeatherMeta(id: nat, main: Conditions.WeatherDescription)

  /** `WeatherData`: one decoded weather observation. */
  datatype WeatherData = WeatherData(
    dt: int,
    feelsLike: F32, pressure: int, temp: F32, tempMax: F32, tempMin: F32,
    country: string, sunrise: int, sunset: int,
    timezone: int,
    weather: seq<WeatherMeta>,
    windDeg: nat, windGust: Option<F32>, windSpeed: F32)

  /** `LocationData`: the entries of one geocoding answer. */
  datatype LocationData = LocationData(entries: seq<Geo.LocationInfo>)

  /*********************************************************************
   *                        Messages and tasks                         *
   *********************************************************************/

  datatype NamedKey = F5 | OtherNamed(code: nat)

  datatype Key = Named(named: NamedKey) | Character(text: string) | Unidentified

  /** The toolkit events the window listens to. */
  datatype IcedEvent =
    | KeyPressed(key: Key, modifiers: bv32)
    | KeyReleased(key: Key, modifiers: bv32)
    | OtherEvent(code: nat)

  /** `Message`: everything `update` reacts to. */
  datatype Message =
    | LocationSelectorPressed
    | LocationNameEntered(location: string)
    | RefreshButtonPressed
    | WeatherDataReceived(weather: Option<WeatherData>, weatherError: Option<string>)
    | LocationDataReceived(locations: Option<LocationData>, locationError: Option<string>)
    | LocationSelected(selected: Geo.LocationInfo)
    | SearchLocationPressed
    | APIKeyChanged(key: string)
    | ThemeChanged(theme: Theme)
    | AboutButtonPressed
    | SettingsButtonPressed
    | PoweroffButtonPressed
    | RestartSystem
    | PoweroffSystem
    | ExitProgramm
    | TickUptime
    | Event(event: IcedEvent)

  /** The work `update` hands back to the runtime instead of doing it. */
  datatype Task =
    | NoTask
    | FocusNext
    | FetchWeather(location: Location, apiKey: string, units: Units.Units)
    | Geocode(name: Geo.LocationName, apiKey: string)
    | ExitProcess

  /** What `sys::reboot()` or `sys::poweroff()` reported. */
  datatype SysOutcome = SysOk | SysFailed(why: string)

  /** A timer or listener the window subscribes to. */
  datatype Subscription = ListenEvents | Every(secs: nat, message: Message)

  /*********************************************************************
   *                     The state, as a value                         *
   *********************************************************************/

  datatype IceState = IceState(
    conf: Conf,
    locationStr: string,
    theme: Theme,
    isErr: Option<string>,
    modal: Option<ModalWindow>,
    weatherData: Option<WeatherData>,
    geocodingData: Option<LocationData>,
    selectedLocation: Option<Geo.LocationInfo>,
    uptime: nat)

  datatype Transition = Transition(next: IceState, task: Task)

  /** `Ice::default()`, given what reading the configuration file gave: on
      failure the default configuration and the error text. */
  function Initial(parsed: Result<Conf, string>): (s: IceState)
    ensures s.conf == (if parsed.Ok? then parsed.value else DefaultConf())
    ensures s.isErr == (if parsed.Err? then Some(parsed.error) else None)
    ensures s.locationStr == "" && s.modal.None? && s.weatherData.None? && s.uptime == 0
    ensures s.theme == Dark && s.geocodingData.None? && s.selectedLocation.None?
  {
    IceState(
      if parsed.Ok? then parsed.value else DefaultConf(),
      "", Dark,
      if parsed.Err? then Some(parsed.error) else None,
      None, None, None, None, 0)
  }

  /** `set_modal_win`: opens `w` when no dialog is shown, otherwise closes
      whichever dialog is shown. */
  function Toggle(modal: Option<ModalWindow>, w: ModalWindow): (r: Option<ModalWindow>)
    ensures r.Some? <==> modal.None?
    ensures r.Some? ==> r.value == w
  {
    match modal
    case None => Some(w)
    case Some(_) => None
  }

  /** The weather request `RefreshButtonPressed` and F5 start: always metric. */
  function WeatherFetch(c: Conf): Task {
    FetchWeather(c.location, c.apiKey, Units.Metric)
  }

  /** The place a search looks up: the parsed text, or "Dzerzhinsk" when the
      text has more than three comma-separated pieces. */
  function SearchTarget(locationStr: string): (n: Geo.LocationName)
    ensures Geo.CommaCount(locationStr) <= 2 ==> Geo.Show(n) == locationStr
    ensures Geo.CommaCount(locationStr) > 2 ==> n == Geo.New("Dzerzhinsk")
  {
    match Geo.FromStr(locationStr)
    case Some(parsed) => Geo.FromStrThenShow(locationStr); parsed
    case None => Geo.New("Dzerzhinsk")
  }

  /** The refresh interval `subscription` chooses: 1 s while there is no
      weather, 10 min once there is. */
  function RefreshEvery(s: IceState): (secs: nat)
    ensures secs == 1 <==> s.weatherData.None?
    ensures secs == 600 <==> s.weatherData.Some?
  {
    if s.weatherData.None? then 1 else 600
  }

  /** `update`, as a function of the state before: the state after and the task. */
  function Step(s: IceState, msg: Message, sys: SysOutcome): (t: Transition)
    decreases if msg.LocationSelected? then 1 else 0
    ensures t.next.conf.units == s.conf.units
    ensures t.next.conf.apiKey == (if msg.APIKeyChanged? then msg.key else s.conf.apiKey)
    ensures t.next.theme == (if msg.ThemeChanged? then msg.theme else s.theme)
    ensures !msg.WeatherDataReceived? ==> t.next.weatherData == s.weatherData
  {
    match msg
    case LocationSelectorPressed => Transition(s.(modal := Toggle(s.modal, LocationSelector)), FocusNext)
    case LocationNameEntered(location) => Transition(s.(locationStr := location), NoTask)
    case RefreshButtonPressed => Transition(s, WeatherFetch(s.conf))
    case SearchLocationPressed => Transition(s, Geocode(SearchTarget(s.locationStr), s.conf.apiKey))
    case WeatherDataReceived(w, e) => Transition(s.(weatherData := w, isErr := e), NoTask)
    case LocationDataReceived(g, e) => Transition(s.(geocodingData := g, isErr := e), NoTask)
    case LocationSelected(l) =>
      var chosen := s.(
        conf := s.conf.(location := Location(l.lat, l.lon)),
        selectedLocation := Some(l),
        locationStr := "",
        geocodingData := None,
        modal := Toggle(s.modal, LocationSelector));
      Step(chosen, RefreshButtonPressed, sys)
    case AboutButtonPressed => Transition(s.(modal := Toggle(s.modal, About)), NoTask)
    case SettingsButtonPressed => Transition(s.(modal := Toggle(s.modal, Settings)), NoTask)
    case PoweroffButtonPressed => Transition(s.(modal := Toggle(s.modal, PowerOff)), NoTask)
    case RestartSystem =>
      (match sys
       case SysOk => Transition(s, NoTask)
       case SysFailed(why) => Transition(s.(isErr := Some("RestartSystem: " + why)), NoTask))
    case PoweroffSystem =>
      (match sys
       case SysOk => Transition(s, NoTask)
       case SysFailed(why) => Transition(s.(isErr := Some("PowerOffSystem: " + why)), NoTask))
    case ExitProgramm => Transition(s, ExitProcess)
    case TickUptime => Transition(s.(uptime := s.uptime + 1), NoTask)
    case APIKeyChanged(key) => Transition(s.(conf := s.conf.(apiKey := key)), NoTask)
    case ThemeChanged(theme) => Transition(s.(theme := theme), NoTask)
    case Event(event) =>
      if event.KeyPressed? && event.key == Named(F5) then Transition(s, WeatherFetch(s.conf))
      else Transition(s, NoTask)
  }

  /*********************************************************************
   *                         The window object                         *
   *********************************************************************/

  /** `Ice`: the window's state, updated in place by `update`. */
  class Ice {
    var conf: Conf
    var locationStr: string
    var theme: Theme
    var isErr: Option<string>
    var modal: Option<ModalWindow>
    var weatherData: Option<WeatherData>
    var geocodingData: Option<LocationData>
    var selectedLocation: Option<Geo.LocationInfo>
    var uptime: nat

    /** The fields, as one value. */
    function State(): IceState
      reads this
    {
      IceState(conf, locationStr, theme, isErr, modal, weatherData, geocodingData, selectedLocation, uptime)
    }

    /** `Ice::default()`; `parsed` is what `Conf::parse` returned. */
    constructor (parsed: Result<Conf, string>)
      ensures State() == Initial(parsed)
    {
      conf := if parsed.Ok? then parsed.value else DefaultConf();
      isErr := if parsed.Err? then Some(parsed.error) else None;
      locationStr := "";
      theme := Dark;
      modal := None;
      weatherData := None;
      geocodingData := None;
      selectedLocation := None;
      uptime := 0;
    }

    /** `subscription`: all events, a one-second uptime tick, and a refresh
        timer of `RefreshEvery` seconds. */
    function Subscriptions(): (subs: seq<Subscription>)
      reads this
      ensures |subs| == 3 && subs[0] == ListenEvents && subs[1] == Every(1, TickUptime)
      ensures subs[2] == Every(RefreshEvery(State()), RefreshButtonPressed)
    {
      [ListenEvents,
       Every(1, TickUptime),
       if weatherData.None? then Every(1, RefreshButtonPressed) else Every(600, RefreshButtonPressed)]
    }

    /** `set_modal_win`: toggles the dialog and touches nothing else. */
    method SetModalWin(w: ModalWindow)
      modifies this
      ensures modal == (if old(modal).None? then Some(w) else None)
      ensures State() == old(State()).(modal := Toggle(old(modal), w))
    {
      modal := match modal
        case None => Some(w)
        case Some(_) => None;
    }

    /** `update`: changes the fields as `Step` says and returns its task.
        `sys` is the outcome of the reboot or power-off call, when one is made. */
    method Update(msg: Message, sys: SysOutcome) returns (task: Task)
      modifies this
      ensures Transition(State(), task) == Step(old(State()), msg, sys)
      decreases if msg.LocationSelected? then 1 else 0
    {
      var conf := this.conf;
      var locationStr := this.locationStr;
      match msg {
        case LocationSelectorPressed =>
          SetModalWin(LocationSelector);
          task := FocusNext;
        case LocationNameEntered(location) =>
          this.locationStr := location;
          task := NoTask;
        case RefreshButtonPressed =>
          task := FetchWeather(conf.location, conf.apiKey, Units.Metric);
        case SearchLocationPressed =>
          var name := Geo.FromStr(locationStr).GetOr(Geo.New("Dzerzhinsk"));
          task := Geocode(name, conf.apiKey);
        case WeatherDataReceived(w, e) =>
          weatherData, isErr := w, e;
          task := NoTask;
        case LocationDataReceived(g, e) =>
          geocodingData, isErr := g, e;
          task := NoTask;
        case LocationSelected(location) =>
          this.conf := this.conf.(location := Location(location.lat, location.lon));
          selectedLocation := Some(location);
          this.locationStr := "";
          geocodingData := None;
          SetModalWin(LocationSelector);
          task := Update(RefreshButtonPressed, sys);
        case AboutButtonPressed =>
          SetModalWin(About);
          task := NoTask;
        case SettingsButtonPressed =>
          SetModalWin(Settings);
          task := NoTask;
        case PoweroffButtonPressed =>
          SetModalWin(PowerOff);
          task := NoTask;
        case RestartSystem =>
          if sys.SysFailed? {
            isErr := Some("RestartSystem: " + sys.why);
          }
          task := NoTask;
        case PoweroffSystem =>
          if sys.SysFailed? {
            isErr := Some("PowerOffSystem: " + sys.why);
          }
          task := NoTask;
        case ExitProgramm =>
          task := ExitProcess;
        case TickUptime =>
          uptime := uptime + 1;
          task := NoTask;
        case APIKeyChanged(key) =>
          this.conf := this.conf.(apiKey := key);
          task := NoTask;
        case ThemeChanged(t) =>
          theme := t;
          task := NoTask;
        case Event(event) =>
          if event.KeyPressed? && event.key == Named(F5) {
            task := FetchWeather(conf.location, conf.apiKey, Units.Metric);
          } else {
            task := NoTask;
          }
      }
    }
  }

  /*********************************************************************
   *                    Properties of the state machine                *
   *********************************************************************/

  /** The dialog buttons open their dialog only when none is shown; when any
      dialog is shown, whichever it is, they close it. */
  lemma DialogButtons(s: IceState, msg: Message, sys: SysOutcome)
    requires msg in {AboutButtonPressed, SettingsButtonPressed, PoweroffButtonPressed, LocationSelectorPressed}
    ensures var w := match msg
                     case AboutButtonPressed => About
                     case SettingsButtonPressed => Settings
                     case PoweroffButtonPressed => PowerOff
                     case _ => LocationSelector;
            Step(s, msg, sys).next == s.(modal := if s.modal.None? then Some(w) else None)
  {
  }

  /** Pressing About while Settings is open just closes Settings. */
  lemma AboutClosesSettings(s: IceState, sys: SysOutcome)
    requires s.modal == Some(Settings)
    ensures Step(s, AboutButtonPressed, sys).next.modal.None?
  {
  }

  /** A weather result replaces the weather and the error and nothing else; a
      failure therefore discards the weather shown before. Applying it twice
      is applying it once. */
  lemma WeatherResult(s: IceState, w: Option<WeatherData>, e: Option<string>, sys: SysOutcome)
    ensures var t := Step(s, WeatherDataReceived(w, e), sys);
            t.task == NoTask && t.next == s.(weatherData := w, isErr := e)
            && Step(t.next, WeatherDataReceived(w, e), sys) == t
    ensures w.None? ==> Step(s, WeatherDataReceived(w, e), sys).next.weatherData.None?
  {
  }

  /** After a failed fetch the refresh timer is back to one second; after a
      successful one it is ten minutes. */
  lemma ResultSetsRefreshInterval(s: IceState, w: Option<WeatherData>, e: Option<string>, sys: SysOutcome)
    ensures RefreshEvery(Step(s, WeatherDataReceived(w, e), sys).next) == (if w.Some? then 600 else 1)
  {
  }

  /** A geocoding result replaces the candidate list and the error, nothing else. */
  lemma LocationResult(s: IceState, g: Option<LocationData>, e: Option<string>, sys: SysOutcome)
    ensures Step(s, LocationDataReceived(g, e), sys) == Transition(s.(geocodingData := g, isErr := e), NoTask)
  {
  }

  /** Choosing a candidate stores its coordinates and the choice, clears the
      search text and the candidate list, toggles the dialog, and then starts
      exactly the request a refresh would start from that new state: weather
      for the chosen coordinates. */
  lemma SelectionRefreshes(s: IceState, l: Geo.LocationInfo, sys: SysOutcome)
    ensures var t := Step(s, LocationSelected(l), sys);
            && t.next.conf == s.conf.(location := Location(l.lat, l.lon))
            && t.next.selectedLocation == Some(l)
            && t.next.locationStr == "" && t.next.geocodingData.None?
            && t.next.modal == Toggle(s.modal, LocationSelector)
            && t.next.weatherData == s.weatherData && t.next.isErr == s.isErr && t.next.uptime == s.uptime
            && t.task == Step(t.next, RefreshButtonPressed, sys).task
            && t.task == FetchWeather(Location(l.lat, l.lon), s.conf.apiKey, Units.Metric)
  {
  }

  /** The uptime tick adds exactly one second; text, key and theme changes
      overwrite only their own field. None of them starts a task. */
  lemma FieldMessages(s: IceState, text: string, t: Theme, sys: SysOutcome)
    ensures Step(s, TickUptime, sys) == Transition(s.(uptime := s.uptime + 1), NoTask)
    ensures Step(s, LocationNameEntered(text), sys) == Transition(s.(locationStr := text), NoTask)
    ensures Step(s, APIKeyChanged(text), sys) == Transition(s.(conf := s.conf.(apiKey := text)), NoTask)
    ensures Step(s, ThemeChanged(t), sys) == Transition(s.(theme := t), NoTask)
  {
  }

  /** No message makes the uptime go down, and only the tick changes it. */
  lemma UptimeMonotone(s: IceState, msg: Message, sys: SysOutcome)
    ensures Step(s, msg, sys).next.uptime == s.uptime + (if msg == TickUptime then 1 else 0)
  {
  }

  /** The refresh button and an F5 press start the same weather request for the
      configured place and key, and change nothing; every other toolkit event
      does nothing. */
  lemma RefreshAndF5(s: IceState, event: IcedEvent, sys: SysOutcome)
    ensures Step(s, RefreshButtonPressed, sys) == Transition(s, FetchWeather(s.conf.location, s.conf.apiKey, Units.Metric))
    ensures event.KeyPressed? && event.key == Named(F5) ==> Step(s, Event(event), sys) == Step(s, RefreshButtonPressed, sys)
    ensures !(event.KeyPressed? && event.key == Named(F5)) ==> Step(s, Event(event), sys) == Transition(s, NoTask)
  {
  }

  /** Which messages start work: exactly the dialog focus, the two kinds of
      request, selection, exit, and F5. */
  lemma TaskStarters(s: IceState, msg: Message, sys: SysOutcome)
    ensures Step(s, msg, sys).task != NoTask
            <==> (|| msg in {LocationSelectorPressed, RefreshButtonPressed, SearchLocationPressed, ExitProgramm}
                  || msg.LocationSelected?
                  || (msg.Event? && msg.event.KeyPressed? && msg.event.key == Named(F5)))
  {
  }

  /** A search looks up the typed text as parsed; "Dzerzhinsk" replaces it only
      when the text has three commas or more, and an empty text is searched
      as an empty city. */
  lemma SearchFallback(s: IceState, sys: SysOutcome)
    ensures var t := Step(s, SearchLocationPressed, sys);
            && t.next == s
            && t.task == Geocode(if Geo.CommaCount(s.locationStr) <= 2 then Geo.FromStr(s.locationStr).value
                                 else Geo.New("Dzerzhinsk"), s.conf.apiKey)
    ensures s.locationStr == "" ==> Step(s, SearchLocationPressed, sys).task.name == Geo.New("")
  {
    var parsed := Geo.FromStr(s.locationStr);
    assert Step(s, SearchLocationPressed, sys) == Transition(s, Geocode(SearchTarget(s.locationStr), s.conf.apiKey));
    assert SearchTarget(s.locationStr) == if parsed.Some? then parsed.value else Geo.New("Dzerzhinsk");
    if s.locationStr == "" {
      Geo.EmptyPiecesKept();
    }
  }

  /** A failed reboot or power-off records why; a successful one changes nothing. */
  lemma SystemCalls(s: IceState, why: string)
    ensures Step(s, RestartSystem, SysFailed(why)) == Transition(s.(isErr := Some("RestartSystem: " + why)), NoTask)
    ensures Step(s, PoweroffSystem, SysFailed(why)) == Transition(s.(isErr := Some("PowerOffSystem: " + why)), NoTask)
    ensures Step(s, RestartSystem, SysOk) == Transition(s, NoTask)
    ensures Step(s, PoweroffSystem, SysOk) == Transition(s, NoTask)
  {
  }

  /** Start-up: nothing is shown, so the refresh timer fires every second; the
      first successful fetch moves it to ten minutes. */
  lemma StartupThenFirstWeather(parsed: Result<Conf, string>, w: WeatherData, sys: SysOutcome)
    ensures RefreshEvery(Initial(parsed)) == 1
    ensures RefreshEvery(Step(Initial(parsed), WeatherDataReceived(Some(w), None), sys).next) == 600
  {
  }
}
