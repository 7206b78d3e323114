/**
 * The newer widget (MMM-forecast-io.js) as a state machine: the fields the
 * module object keeps, the events that drive it (the framework's `start`, a
 * timer firing, the JSONP request's two callbacks, the geolocation lookup's
 * two callbacks, a notification), and `getDom`.
 *
 * `WidgetState` and the functions over it are the specification; the class
 * `Widget` holds the same fields and each of its methods is proved to move
 * them exactly as the matching function says. The lemmas state what the
 * polling loop promises across events.
 *
 * The environment is kept abstract: `timers` lists the delays of the
 * `setTimeout` callbacks still to run (the code never cancels one),
 * `pendingFetches` counts `getJSONP` requests whose callback has not run,
 * `requests` logs every URL handed to `getJSONP`, `geoRequests` counts
 * `getCurrentPosition` calls awaiting their callback, and `domUpdates`
 * counts calls to `updateDom`.
 */
module ForecastWidget {
  import opened Wrappers
  import opened WidgetCommon
  import opened ForecastData

  /** The options the module reads (`this.config`). */
  datatype Config = Config(
    apiKey: string,
    apiBase: string,
    units: string,
    language: string,
    showIndoorTemperature: bool,
    updateInterval: int,
    initialLoadDelay: int,
    retryDelay: int,
    tempDecimalPlaces: int,
    latitude: Coordinate,
    longitude: Coordinate,
    showForecast: bool,
    maxDaysForecast: int,
    enablePrecipitationGraph: bool,
    showPrecipitationGraph: Option<bool>,  // the older name of the option, when configured
    alwaysShowPrecipitationGraph: bool,
    precipitationProbabilityThreshold: real,
    precipitationIntensityScaleTop: real,
    unitTable: map<string, string>,
    iconTable: map<string, string>,
    data: Option<Snapshot>)  // a canned response used instead of the network

  /**
   * The module's `defaults`, for the global `units` and `language`: the
   * default table asks for "si" in metric, "us" in imperial and "auto"
   * otherwise; updates come every five minutes; the location is looked up;
   * temperatures are shown in whole degrees.
   */
  function Defaults(units: string, language: string): (c: Config)
    ensures c.units == units && c.language == language
    ensures UnitParameter(c.unitTable, units) ==
      if units == "metric" then "si" else if units == "imperial" then "us" else "auto"
    ensures NextLoad(None, c.updateInterval) == 300_000
    ensures ShouldLookupGeolocation(c.latitude, c.longitude)
    ensures forall t: real :: RoundTemp(t, c.tempDecimalPlaces) == MathRound(t)
  {
    Config(
      apiKey := "",
      apiBase := "https://api.darksky.net/forecast",
      units := units,
      language := language,
      showIndoorTemperature := false,
      updateInterval := 5 * 60 * 1000,
      initialLoadDelay := 0,
      retryDelay := 2500,
      tempDecimalPlaces := 0,
      latitude := None,
      longitude := None,
      showForecast := true,
      maxDaysForecast := 7,
      enablePrecipitationGraph := true,
      showPrecipitationGraph := None,
      alwaysShowPrecipitationGraph := false,
      precipitationProbabilityThreshold := 0.1,
      precipitationIntensityScaleTop := 0.2,
      unitTable := map["default" := "auto", "metric" := "si", "imperial" := "us"],
      iconTable := map[
        "clear-day" := "wi-day-sunny",
        "clear-night" := "wi-night-clear",
        "rain" := "wi-rain",
        "snow" := "wi-snow",
        "sleet" := "wi-rain-mix",
        "wind" := "wi-cloudy-gusts",
        "fog" := "wi-fog",
        "cloudy" := "wi-cloudy",
        "partly-cloudy-day" := "wi-day-cloudy",
        "partly-cloudy-night" := "wi-night-cloudy",
        "hail" := "wi-hail",
        "thunderstorm" := "wi-thunderstorm",
        "tornado" := "wi-tornado"],
      data := None)
  }

  // ---------------------------------------------------------------------------
  // The state and its transitions
  // ---------------------------------------------------------------------------

  datatype WidgetState = WidgetState(
    config: Config,
    loaded: bool,
    weatherData: Option<Snapshot>,
    temp: Option<real>,
    roomTemperature: Option<real>,
    geoLocationLookupSuccess: bool,
    geoLocationLookupFailed: bool,
    timers: seq<int>,
    pendingFetches: nat,
    requests: seq<string>,
    geoRequests: nat,
    domUpdates: nat)

  /** The module object as the framework creates it, before `start`. */
  function Initial(config: Config): WidgetState {
    WidgetState(config, false, None, None, None, false, false, [], 0, [], 0, 0)
  }

  /** What the fields always satisfy. */
  predicate ValidState(s: WidgetState) {
    && (s.loaded <==> s.weatherData.Some?)
    && (s.temp.Some? ==> s.loaded)
    && (s.geoLocationLookupSuccess ==> s.config.latitude.Some? && s.config.longitude.Some?)
  }

  /** Outstanding asynchronous work: timers still to fire and requests still to answer. */
  function Activities(s: WidgetState): nat {
    |s.timers| + s.pendingFetches
  }

  predicate ShouldLookup(s: WidgetState) {
    ShouldLookupGeolocation(s.config.latitude, s.config.longitude)
  }

  /** The URL `updateWeather` requests in state `s`. */
  function RequestFor(s: WidgetState): string {
    RequestUrl(s.config.apiBase, RequestParts(
      s.config.apiKey,
      CoordinateText(s.config.latitude),
      CoordinateText(s.config.longitude),
      UnitParameter(s.config.unitTable, s.config.units),
      s.config.language))
  }

  /** `scheduleUpdate(delay)`: one more timer; none is replaced or cancelled. */
  function ScheduleUpdateStep(s: WidgetState, delay: Option<int>): WidgetState {
    s.(timers := s.timers + [NextLoad(delay, s.config.updateInterval)])
  }

  /**
   * `processWeather(data)`. Reading `currently.temperature` of a response
   * without `currently` throws, after `loaded` and `weatherData` are set, so
   * neither `updateDom` nor `scheduleUpdate` runs.
   */
  function ProcessWeatherStep(s: WidgetState, data: Snapshot): WidgetState {
    var received := s.(loaded := true, weatherData := Some(data));
    match data.currently
    case None => received
    case Some(now) =>
      var rounded := received.(
        temp := Some(RoundTemp(now.temperature, s.config.tempDecimalPlaces)),
        domUpdates := s.domUpdates + 1);
      ScheduleUpdateStep(rounded, None)
  }

  /** `processWeatherError`: try again after the update interval. */
  function ProcessWeatherErrorStep(s: WidgetState): WidgetState {
    ScheduleUpdateStep(s, None)
  }

  /** `updateWeather`: stop, retry in a second, or fetch (or use the canned response). */
  function UpdateWeatherStep(s: WidgetState): WidgetState {
    if s.geoLocationLookupFailed then s
    else if ShouldLookup(s) && !s.geoLocationLookupSuccess then
      ScheduleUpdateStep(s, Some(GeolocationRetryDelay))
    else if s.config.data.Some? then ProcessWeatherStep(s, s.config.data.value)
    else s.(pendingFetches := s.pendingFetches + 1, requests := s.requests + [RequestFor(s)])
  }

  /** `start`: honour the old option name, ask for the location if needed, schedule the first update. */
  function StartStep(s: WidgetState): WidgetState {
    var config := match s.config.showPrecipitationGraph
      case Some(show) => s.config.(enablePrecipitationGraph := show)
      case None => s.config;
    var configured := s.(config := config);
    var located := if ShouldLookup(configured)
      then configured.(geoRequests := configured.geoRequests + 1)
      else configured;
    ScheduleUpdateStep(located, Some(config.initialLoadDelay))
  }

  /** Everything that can happen to the widget. */
  datatype Event =
    | Started
    | TimerFired(index: nat)
    | FetchSucceeded(data: Snapshot)
    | FetchFailed
    | GeolocationSucceeded(latitude: string, longitude: string)
    | GeolocationFailed
    | Notification(notification: string, payload: real)

  /** An event can happen only when something is waiting for it. */
  predicate Enabled(s: WidgetState, e: Event) {
    match e
    case TimerFired(i) => i < |s.timers|
    case FetchSucceeded(_) => s.pendingFetches > 0
    case FetchFailed => s.pendingFetches > 0
    case GeolocationSucceeded(_, _) => s.geoRequests > 0
    case GeolocationFailed => s.geoRequests > 0
    case _ => true
  }

  /** The state after event `e`. */
  function Next(s: WidgetState, e: Event): WidgetState
    requires Enabled(s, e)
  {
    match e
    case Started => StartStep(s)
    case TimerFired(i) => UpdateWeatherStep(s.(timers := s.timers[..i] + s.timers[i + 1..]))
    case FetchSucceeded(data) => ProcessWeatherStep(s.(pendingFetches := s.pendingFetches - 1), data)
    case FetchFailed => ProcessWeatherErrorStep(s.(pendingFetches := s.pendingFetches - 1))
    case GeolocationSucceeded(lat, lon) =>
      s.(config := s.config.(latitude := Some(lat), longitude := Some(lon)),
         geoLocationLookupSuccess := true,
         geoRequests := s.geoRequests - 1)
    case GeolocationFailed =>
      s.(geoLocationLookupFailed := true, geoRequests := s.geoRequests - 1, domUpdates := s.domUpdates + 1)
    case Notification(n, payload) =>
      if n == "INDOOR_TEMPERATURE" && s.config.showIndoorTemperature
      then s.(roomTemperature := Some(payload), domUpdates := s.domUpdates + 1)
      else s
  }

  /** Every event keeps the fields consistent. */
  lemma NextKeepsValid(s: WidgetState, e: Event)
    requires ValidState(s) && Enabled(s, e)
    ensures ValidState(Next(s, e))
  {
  }

  // ---------------------------------------------------------------------------
  // What one cycle of the polling loop does
  // ---------------------------------------------------------------------------

  /**
   * `updateWeather` has exactly three outcomes: after a failed lookup it does
   * nothing at all; while a lookup is needed and has not succeeded it adds
   * one timer of exactly 1000 ms and fetches nothing; otherwise it issues
   * exactly one request, for `RequestFor(s)`, and schedules nothing (or, with
   * a canned response, processes it at once).
   */
  lemma UpdateWeatherOutcomes(s: WidgetState)
    ensures s.geoLocationLookupFailed ==> UpdateWeatherStep(s) == s
    ensures !s.geoLocationLookupFailed && ShouldLookup(s) && !s.geoLocationLookupSuccess ==>
      UpdateWeatherStep(s).timers == s.timers + [1000] &&
      UpdateWeatherStep(s).requests == s.requests &&
      UpdateWeatherStep(s).pendingFetches == s.pendingFetches
    ensures (!s.geoLocationLookupFailed && !(ShouldLookup(s) && !s.geoLocationLookupSuccess)
             && s.config.data.None?) ==>
      UpdateWeatherStep(s).requests == s.requests + [RequestFor(s)] &&
      UpdateWeatherStep(s).pendingFetches == s.pendingFetches + 1 &&
      UpdateWeatherStep(s).timers == s.timers
    ensures (!s.geoLocationLookupFailed && !(ShouldLookup(s) && !s.geoLocationLookupSuccess)
             && s.config.data.Some?) ==>
      UpdateWeatherStep(s) == ProcessWeatherStep(s, s.config.data.value)
  {
  }

  /**
   * An empty API key does not stop the loop: the request is still sent; only
   * the view changes, to the configuration message.
   */
  lemma EmptyApiKeyStillFetches(s: WidgetState)
    requires s.config.apiKey == "" && s.config.data.None?
    requires !s.geoLocationLookupFailed && !(ShouldLookup(s) && !s.geoLocationLookupSuccess)
    ensures var t := UpdateWeatherStep(s);
      && t.requests == s.requests + [RequestFor(s)]
      && t.pendingFetches == s.pendingFetches + 1
      && DisplayStatus(t.config.apiKey == "", t.geoLocationLookupFailed, t.loaded) == ConfigurationError
  {
  }

  /** The URL requested with an empty API key carries that empty key in its path. */
  lemma EmptyApiKeyInUrl(s: WidgetState)
    requires s.config.apiKey == ""
    requires ',' !in CoordinateText(s.config.latitude) && '?' !in CoordinateText(s.config.longitude)
    requires '&' !in UnitParameter(s.config.unitTable, s.config.units)
    ensures ParseRequestUrl(s.config.apiBase, RequestFor(s)) == Some(RequestParts("",
      CoordinateText(s.config.latitude), CoordinateText(s.config.longitude),
      UnitParameter(s.config.unitTable, s.config.units), s.config.language))
  {
  }

  /**
   * A completed request replaces the snapshot wholesale and marks the widget
   * loaded; with `currently` present it stores the rounded temperature and
   * schedules the next cycle after `updateInterval`, and without it nothing
   * is scheduled and the loop ends.
   */
  lemma FetchSuccessOutcome(s: WidgetState, data: Snapshot)
    requires s.pendingFetches > 0
    ensures var t := Next(s, FetchSucceeded(data));
      t.loaded && t.weatherData == Some(data) && t.pendingFetches == s.pendingFetches - 1
    ensures data.currently.Some? ==> var t := Next(s, FetchSucceeded(data));
      t.temp == Some(RoundTemp(data.currently.value.temperature, s.config.tempDecimalPlaces)) &&
      t.timers == s.timers + [NextLoad(None, s.config.updateInterval)]
    ensures data.currently.None? ==> Next(s, FetchSucceeded(data)).timers == s.timers
  {
  }

  /**
   * A failed request changes nothing but the timers: the next cycle comes
   * after `updateInterval`, and `retryDelay` plays no part.
   */
  lemma FetchFailureOutcome(s: WidgetState, retryDelay: int)
    requires s.pendingFetches > 0
    ensures Next(s, FetchFailed) ==
      s.(pendingFetches := s.pendingFetches - 1, timers := s.timers + [s.config.updateInterval])
    ensures var r := s.(config := s.config.(retryDelay := retryDelay));
      Next(r, FetchFailed) == Next(s, FetchFailed).(config := r.config)
  {
  }

  /**
   * A lookup is started only when both coordinates are missing; a successful
   * one stores both and ends the need for another; a failed one is never
   * forgotten by any later event.
   */
  lemma GeolocationOutcomes(s: WidgetState, lat: string, lon: string, e: Event)
    ensures Next(s, Started).geoRequests == s.geoRequests + (if ShouldLookup(s) then 1 else 0)
    ensures s.geoRequests > 0 ==> var t := Next(s, GeolocationSucceeded(lat, lon));
      t.config.latitude == Some(lat) && t.config.longitude == Some(lon) &&
      t.geoLocationLookupSuccess && !ShouldLookup(t)
    ensures s.geoRequests > 0 ==> Next(s, GeolocationFailed).geoLocationLookupFailed
    ensures s.geoLocationLookupFailed && Enabled(s, e) ==> Next(s, e).geoLocationLookupFailed
  {
  }

  // ---------------------------------------------------------------------------
  // What the polling loop promises across events
  // ---------------------------------------------------------------------------

  /** The events `es`, in order, can each happen when their turn comes. */
  predicate Admissible(s: WidgetState, es: seq<Event>)
    decreases |es|
  {
    es == [] || (Enabled(s, es[0]) && Admissible(Next(s, es[0]), es[1..]))
  }

  /** The state after the events `es`. */
  function Run(s: WidgetState, es: seq<Event>): WidgetState
    requires Admissible(s, es)
    decreases |es|
  {
    if es == [] then s else Run(Next(s, es[0]), es[1..])
  }

  /** Only `start` adds outstanding work without consuming any. */
  lemma NextNeverAddsActivity(s: WidgetState, e: Event)
    requires Enabled(s, e) && e != Started
    ensures Activities(Next(s, e)) <= Activities(s)
  {
    match e
    case TimerFired(i) =>
      assert |s.timers[..i] + s.timers[i + 1..]| == |s.timers| - 1;
    case _ =>
  }

  /**
   * Once started, the widget never has more than one thing outstanding: one
   * pending timer or one request in flight. In particular two requests are
   * never in flight together, though the code has no guard against it.
   */
  lemma {:induction false} SingleFlight(s: WidgetState, es: seq<Event>)
    requires Activities(s) <= 1 && Admissible(s, es) && Started !in es
    ensures Activities(Run(s, es)) <= 1 && Run(s, es).pendingFetches <= 1
    decreases |es|
  {
    if es != [] {
      NextNeverAddsActivity(s, es[0]);
      assert Started !in es[1..] by {
        assert forall k :: 0 <= k < |es[1..]| ==> es[1..][k] == es[k + 1];
      }
      SingleFlight(Next(s, es[0]), es[1..]);
    }
  }

  /** The framework's one `start` leaves exactly one timer and nothing else outstanding. */
  lemma StartSchedulesOnce(config: Config)
    ensures Activities(Next(Initial(config), Started)) == 1
    ensures Next(Initial(config), Started).timers == [NextLoad(Some(config.initialLoadDelay), config.updateInterval)]
  {
  }

  /**
   * After a failed lookup, with no request in flight, the loop is over for
   * good: whatever happens next, no request is ever sent and no timer is
   * ever added.
   */
  lemma {:induction false} GeolocationFailureStopsPolling(s: WidgetState, es: seq<Event>)
    requires s.geoLocationLookupFailed && s.pendingFetches == 0
    requires Admissible(s, es) && Started !in es
    ensures Run(s, es).requests == s.requests
    ensures Run(s, es).pendingFetches == 0
    ensures |Run(s, es).timers| <= |s.timers|
    decreases |es|
  {
    if es != [] {
      var t := Next(s, es[0]);
      if es[0].TimerFired? {
        var i := es[0].index;
        assert |s.timers[..i] + s.timers[i + 1..]| == |s.timers| - 1;
      }
      assert t.geoLocationLookupFailed && t.requests == s.requests && t.pendingFetches == 0;
      assert |t.timers| <= |s.timers|;
      assert Started !in es[1..] by {
        assert forall k :: 0 <= k < |es[1..]| ==> es[1..][k] == es[k + 1];
      }
      GeolocationFailureStopsPolling(t, es[1..]);
    }
  }

  // ---------------------------------------------------------------------------
  // getDom
  // ---------------------------------------------------------------------------

  /** What the content view shows; `graphScaleTop` is present when the graph is drawn. */
  datatype Content = Content(
    iconClass: Option<string>,
    temperature: Option<real>,
    roomTemperature: Option<real>,
    summary: string,
    graphScaleTop: Option<real>,
    forecast: Option<Forecast>)

  datatype View = View(status: Status, content: Option<Content>)

  function LookupIcon(iconTable: map<string, string>, icon: string): Option<string> {
    if icon in iconTable then Some(iconTable[icon]) else None
  }

  /**
   * The content `getDom` builds from a loaded state: the current icon (the
   * hourly one when `currently` is missing), the stored temperatures, the
   * minutely summary (else the hourly one), the precipitation graph when it
   * is forced or enabled with precipitation ahead, and the forecast table.
   */
  predicate DescribesContent(s: WidgetState, c: Content)
    requires s.weatherData.Some?
  {
    var d := s.weatherData.value;
    var cfg := s.config;
    && c.iconClass == LookupIcon(cfg.iconTable,
         if d.currently.Some? then d.currently.value.icon else d.hourly.icon)
    && c.temperature == s.temp
    && c.roomTemperature == s.roomTemperature
    && c.summary == (if d.minutely.Some? then d.minutely.value.summary else d.hourly.summary)
    && (c.graphScaleTop.Some? <==>
         d.minutely.Some? && ShowsPrecipitationGraph(cfg.alwaysShowPrecipitationGraph,
           cfg.enablePrecipitationGraph, d.minutely, cfg.precipitationProbabilityThreshold))
    && (c.graphScaleTop.Some? ==>
         IsScaleTop(c.graphScaleTop.value, d.minutely.value.data, cfg.precipitationIntensityScaleTop))
    && (c.forecast.Some? <==> cfg.showForecast)
    && (c.forecast.Some? ==>
         IsForecastOf(c.forecast.value, d.daily, cfg.maxDaysForecast, cfg.tempDecimalPlaces))
  }

  // ---------------------------------------------------------------------------
  // The module object
  // ---------------------------------------------------------------------------

  class Widget {
    var config: Config
    var loaded: bool
    var weatherData: Option<Snapshot>
    var temp: Option<real>
    var roomTemperature: Option<real>
    var geoLocationLookupSuccess: bool
    var geoLocationLookupFailed: bool
    var timers: seq<int>
    var pendingFetches: nat
    var requests: seq<string>
    var geoRequests: nat
    var domUpdates: nat

    ghost function State(): WidgetState
      reads this
    {
      WidgetState(config, loaded, weatherData, temp, roomTemperature,
        geoLocationLookupSuccess, geoLocationLookupFailed,
        timers, pendingFetches, requests, geoRequests, domUpdates)
    }

    ghost predicate Valid()
      reads this
    {
      ValidState(State())
    }

    constructor (config: Config)
      ensures Valid() && State() == Initial(config)
    {
      this.config := config;
      loaded, weatherData, temp, roomTemperature := false, None, None, None;
      geoLocationLookupSuccess, geoLocationLookupFailed := false, false;
      timers, pendingFetches, requests, geoRequests, domUpdates := [], 0, [], 0, 0;
    }

    function ShouldLookupGeolocation(): (b: bool)
      reads this
      ensures b <==> config.latitude.None? && config.longitude.None?
    {
      config.latitude == None && config.longitude == None
    }

    method ScheduleUpdate(delay: Option<int>)
      modifies this
      ensures State() == ScheduleUpdateStep(old(State()), delay)
    {
      var nextLoad := config.updateInterval;
      if delay.Some? && delay.value >= 0 {
        nextLoad := delay.value;
      }
      timers := timers + [nextLoad];
    }

    method Start()
      requires Valid()
      modifies this
      ensures Valid() && State() == Next(old(State()), Started)
    {
      if config.showPrecipitationGraph.Some? {
        config := config.(enablePrecipitationGraph := config.showPrecipitationGraph.value);
      }
      if ShouldLookupGeolocation() {
        GetLocation();
      }
      ScheduleUpdate(Some(config.initialLoadDelay));
    }

    /** `getLocation`: the lookup is started; one of its callbacks runs later. */
    method GetLocation()
      modifies this
      ensures State() == old(State()).(geoRequests := old(geoRequests) + 1)
    {
      geoRequests := geoRequests + 1;
    }

    method OnGeolocationSuccess(latitude: string, longitude: string)
      requires Valid() && geoRequests > 0
      modifies this
      ensures Valid() && State() == Next(old(State()), GeolocationSucceeded(latitude, longitude))
    {
      config := config.(latitude := Some(latitude), longitude := Some(longitude));
      geoLocationLookupSuccess := true;
      geoRequests := geoRequests - 1;
    }

    method OnGeolocationError()
      requires Valid() && geoRequests > 0
      modifies this
      ensures Valid() && State() == Next(old(State()), GeolocationFailed)
    {
      geoLocationLookupFailed := true;
      geoRequests := geoRequests - 1;
      domUpdates := domUpdates + 1;
    }

    method UpdateWeather()
      requires Valid()
      modifies this
      ensures Valid() && State() == UpdateWeatherStep(old(State()))
    {
      if geoLocationLookupFailed {
        return;
      }
      if ShouldLookupGeolocation() && !geoLocationLookupSuccess {
        ScheduleUpdate(Some(GeolocationRetryDelay));
        return;
      }
      var units := UnitParameter(config.unitTable, config.units);
      var url := RequestUrl(config.apiBase, RequestParts(config.apiKey,
        CoordinateText(config.latitude), CoordinateText(config.longitude), units, config.language));
      if config.data.Some? {
        ProcessWeather(config.data.value);
      } else {
        requests := requests + [url];
        pendingFetches := pendingFetches + 1;
      }
    }

    /** The pending timer at `index` fires and runs `updateWeather`. */
    method TimerFires(index: nat)
      requires Valid() && index < |timers|
      modifies this
      ensures Valid() && State() == Next(old(State()), TimerFired(index))
    {
      timers := timers[..index] + timers[index + 1..];
      UpdateWeather();
    }

    method ProcessWeather(data: Snapshot)
      requires Valid()
      modifies this
      ensures Valid() && State() == ProcessWeatherStep(old(State()), data)
    {
      loaded := true;
      weatherData := Some(data);
      if data.currently.None? {
        return;  // `currently.temperature` throws here
      }
      temp := Some(RoundTemp(data.currently.value.temperature, config.tempDecimalPlaces));
      domUpdates := domUpdates + 1;
      ScheduleUpdate(None);
    }

    method ProcessWeatherError()
      modifies this
      ensures State() == ProcessWeatherErrorStep(old(State()))
    {
      ScheduleUpdate(None);
    }

    /** The request's success callback. */
    method OnFetchSuccess(data: Snapshot)
      requires Valid() && pendingFetches > 0
      modifies this
      ensures Valid() && State() == Next(old(State()), FetchSucceeded(data))
    {
      pendingFetches := pendingFetches - 1;
      ProcessWeather(data);
    }

    /** The request's error callback. */
    method OnFetchError()
      requires Valid() && pendingFetches > 0
      modifies this
      ensures Valid() && State() == Next(old(State()), FetchFailed)
    {
      pendingFetches := pendingFetches - 1;
      ProcessWeatherError();
    }

    method NotificationReceived(notification: string, payload: real)
      requires Valid()
      modifies this
      ensures Valid() && State() == Next(old(State()), Notification(notification, payload))
    {
      if notification == "INDOOR_TEMPERATURE" && config.showIndoorTemperature {
        roomTemperature := Some(payload);
        domUpdates := domUpdates + 1;
      }
    }

    /** `getDom`: the first matching view of four, and the content only when loaded. */
    method GetDom() returns (v: View)
      requires Valid()
      ensures v.status == DisplayStatus(config.apiKey == "", geoLocationLookupFailed, loaded)
      ensures v.content.Some? <==> v.status == Ready
      ensures v.content.Some? ==> DescribesContent(State(), v.content.value)
    {
      var status := DisplayStatus(config.apiKey == "", geoLocationLookupFailed, loaded);
      if status != Ready {
        return View(status, None);
      }
      var d := weatherData.value;
      var icon := if d.currently.Some? then d.currently.value.icon else d.hourly.icon;
      var summary := if d.minutely.Some? then d.minutely.value.summary else d.hourly.summary;
      var graph: Option<real> := None;
      var precipitates := IsAnyPrecipitation(d.minutely, config.precipitationProbabilityThreshold);
      if config.alwaysShowPrecipitationGraph || (config.enablePrecipitationGraph && precipitates) {
        if d.minutely.Some? {
          var top := PrecipitationScaleTop(d.minutely.value.data, config.precipitationIntensityScaleTop);
          graph := Some(top);
        }
      }
      var forecast: Option<Forecast> := None;
      if config.showForecast {
        var f := RenderWeatherForecast(d.daily, config.maxDaysForecast, config.tempDecimalPlaces);
        forecast := Some(f);
      }
      v := View(status, Some(Content(LookupIcon(config.iconTable, icon), temp, roomTemperature,
        summary, graph, forecast)));
    }
  }
}
