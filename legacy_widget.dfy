/**
 * The older widget (MM-forecast-io.js): the same polling loop as the newer
 * one, with a fixed endpoint, a Fahrenheit-to-Celsius conversion done in the
 * widget, a summary with its final period removed, and a request that has
 * no error callback.
 *
 * As in the newer widget, `LegacyState` and its transitions are the
 * specification and the class `Widget` is proved against them; `timers`,
 * `pendingFetches`, `requests`, `geoRequests` and `domUpdates` stand for the
 * pending `setTimeout` callbacks, the unanswered `getJSONP` requests, the
 * URLs requested, the unanswered `getCurrentPosition` calls and the calls to
 * `updateDom`.
 */
module LegacyWidget {
  import opened Wrappers
  import opened WidgetCommon

  /** The options the module reads; note the lower-case `apikey`. */
  datatype Config = Config(
    apikey: string,
    units: string,
    updateInterval: int,
    initialLoadDelay: int,
    retryDelay: int,
    latitude: Coordinate,
    longitude: Coordinate,
    iconTable: map<string, string>)

  datatype Currently = Currently(temperature: real)
  datatype Minutely = Minutely(icon: string, summary: string)

  /** One parsed response: the widget reads `currently` and `minutely` only. */
  datatype Snapshot = Snapshot(currently: Option<Currently>, minutely: Minutely)

  // ---------------------------------------------------------------------------
  // Pure derivations
  // ---------------------------------------------------------------------------

  const Endpoint: string := "https://api.forecast.io/forecast/"

  /**
   * The request URL: key and coordinates only, no units and no language. It
   * determines the key and both coordinates, given a key without '/' and a
   * latitude without ','.
   */
  function LegacyRequestUrl(apikey: string, latitude: string, longitude: string): (url: string)
    ensures '/' !in apikey && ',' !in latitude ==>
      ParseLegacyRequestUrl(url) == Some((apikey, latitude, longitude))
  {
    var coords := latitude + "," + longitude;
    var path := apikey + "/" + coords;
    if '/' !in apikey && ',' !in latitude then
      StripPrefixJoin(Endpoint, path);
      SplitFirstJoin(apikey, '/', coords);
      SplitFirstJoin(latitude, ',', longitude);
      Endpoint + path
    else
      Endpoint + path
  }

  /** Reads a request URL back into key, latitude and longitude. */
  function ParseLegacyRequestUrl(url: string): Option<(string, string, string)> {
    match StripPrefix(url, Endpoint)
    case None => None
    case Some(path) =>
      match SplitFirst(path, '/')
      case None => None
      case Some(keyAndRest) =>
        match SplitFirst(keyAndRest.1, ',')
        case None => None
        case Some(latAndLon) => Some((keyAndRest.0, latAndLon.0, latAndLon.1))
  }

  /**
   * The temperature shown: the response is in Fahrenheit, converted with
   * `(t - 32) / 1.8` when `units` is "metric", then `Math.round`.
   */
  function DisplayTemperature(units: string, fahrenheit: real): (r: real)
    ensures r == r.Floor as real
    ensures units == "metric" ==> (fahrenheit - 32.0) / 1.8 - 0.5 < r <= (fahrenheit - 32.0) / 1.8 + 0.5
    ensures units != "metric" ==> fahrenheit - 0.5 < r <= fahrenheit + 0.5
  {
    var t := if units == "metric" then (fahrenheit - 32.0) / 1.8 else fahrenheit;
    MathRound(t)
  }

  /**
   * A whole Celsius temperature, sent as its Fahrenheit equivalent, is shown
   * unchanged in metric units; a whole Fahrenheit temperature is shown
   * unchanged in any other units.
   */
  lemma DisplayTemperatureRoundTrip(celsius: int, fahrenheit: int, units: string)
    requires units != "metric"
    ensures DisplayTemperature("metric", celsius as real * 1.8 + 32.0) == celsius as real
    ensures DisplayTemperature(units, fahrenheit as real) == fahrenheit as real
  {
    assert (celsius as real * 1.8 + 32.0 - 32.0) / 1.8 == celsius as real;
    MathRoundOfInteger(celsius);
    MathRoundOfInteger(fahrenheit);
  }

  /** Converting a hotter reading never shows a colder temperature. */
  lemma DisplayTemperatureMonotone(units: string, a: real, b: real)
    requires a <= b
    ensures DisplayTemperature(units, a) <= DisplayTemperature(units, b)
  {
    if units == "metric" {
      assert (a - 32.0) / 1.8 <= (b - 32.0) / 1.8;
      MathRoundMonotone((a - 32.0) / 1.8, (b - 32.0) / 1.8);
    } else {
      MathRoundMonotone(a, b);
    }
  }

  /** `summary.replace(/\.$/, '')`: one final '.' is removed, nothing else changes. */
  function StripFinalPeriod(summary: string): (r: string)
    ensures |summary| > 0 && summary[|summary| - 1] == '.' ==> r + "." == summary
    ensures !(|summary| > 0 && summary[|summary| - 1] == '.') ==> r == summary
  {
    if |summary| > 0 && summary[|summary| - 1] == '.' then summary[..|summary| - 1] else summary
  }

  /** Appending a period and stripping it gives the summary back. */
  lemma StripFinalPeriodUndoesAppend(summary: string)
    ensures StripFinalPeriod(summary + ".") == summary
  {
    assert (summary + ".")[..|summary|] == summary;
  }

  /** Only one period goes: "Rain.." becomes "Rain.", and stripping again changes it. */
  lemma StripFinalPeriodNotIdempotent()
    ensures StripFinalPeriod("Rain..") == "Rain."
    ensures StripFinalPeriod(StripFinalPeriod("Rain..")) != StripFinalPeriod("Rain..")
  {
    assert "Rain.."[..5] == "Rain.";
    assert "Rain."[..4] == "Rain";
  }

  // ---------------------------------------------------------------------------
  // The state and its transitions
  // ---------------------------------------------------------------------------

  datatype LegacyState = LegacyState(
    config: Config,
    loaded: bool,
    weatherData: Option<Snapshot>,
    temp: Option<real>,
    geoLocationLookupSuccess: bool,
    geoLocationLookupFailed: bool,
    timers: seq<int>,
    pendingFetches: nat,
    requests: seq<string>,
    geoRequests: nat,
    domUpdates: nat)

  function Initial(config: Config): LegacyState {
    LegacyState(config, false, None, None, false, false, [], 0, [], 0, 0)
  }

  predicate ValidState(s: LegacyState) {
    && (s.loaded <==> s.weatherData.Some?)
    && (s.temp.Some? ==> s.loaded)
    && (s.geoLocationLookupSuccess ==> s.config.latitude.Some? && s.config.longitude.Some?)
  }

  function Activities(s: LegacyState): nat {
    |s.timers| + s.pendingFetches
  }

  predicate ShouldLookup(s: LegacyState) {
    ShouldLookupGeolocation(s.config.latitude, s.config.longitude)
  }

  function RequestFor(s: LegacyState): string {
    LegacyRequestUrl(s.config.apikey, CoordinateText(s.config.latitude), CoordinateText(s.config.longitude))
  }

  function ScheduleUpdateStep(s: LegacyState, delay: Option<int>): LegacyState {
    s.(timers := s.timers + [NextLoad(delay, s.config.updateInterval)])
  }

  /** `processWeather`; a response without `currently` throws after `loaded` and `weatherData` are set. */
  function ProcessWeatherStep(s: LegacyState, data: Snapshot): LegacyState {
    var received := s.(loaded := true, weatherData := Some(data));
    match data.currently
    case None => received
    case Some(now) =>
      var shown := received.(
        temp := Some(DisplayTemperature(s.config.units, now.temperature)),
        domUpdates := s.domUpdates + 1);
      ScheduleUpdateStep(shown, None)
  }

  function UpdateWeatherStep(s: LegacyState): LegacyState {
    if s.geoLocationLookupFailed then s
    else if ShouldLookup(s) && !s.geoLocationLookupSuccess then
      ScheduleUpdateStep(s, Some(GeolocationRetryDelay))
    else s.(pendingFetches := s.pendingFetches + 1, requests := s.requests + [RequestFor(s)])
  }

  function StartStep(s: LegacyState): LegacyState {
    var located := if ShouldLookup(s) then s.(geoRequests := s.geoRequests + 1) else s;
    ScheduleUpdateStep(located, Some(s.config.initialLoadDelay))
  }

  datatype Event =
    | Started
    | TimerFired(index: nat)
    | FetchSucceeded(data: Snapshot)
    | FetchFailed
    | GeolocationSucceeded(latitude: string, longitude: string)
    | GeolocationFailed

  predicate Enabled(s: LegacyState, e: Event) {
    match e
    case TimerFired(i) => i < |s.timers|
    case FetchSucceeded(_) => s.pendingFetches > 0
    case FetchFailed => s.pendingFetches > 0
    case GeolocationSucceeded(_, _) => s.geoRequests > 0
    case GeolocationFailed => s.geoRequests > 0
    case Started => true
  }

  /** The state after `e`; a failed request has no callback here, so it only stops being pending. */
  function Next(s: LegacyState, e: Event): LegacyState
    requires Enabled(s, e)
  {
    match e
    case Started => StartStep(s)
    case TimerFired(i) => UpdateWeatherStep(s.(timers := s.timers[..i] + s.timers[i + 1..]))
    case FetchSucceeded(data) => ProcessWeatherStep(s.(pendingFetches := s.pendingFetches - 1), data)
    case FetchFailed => s.(pendingFetches := s.pendingFetches - 1)
    case GeolocationSucceeded(lat, lon) =>
      s.(config := s.config.(latitude := Some(lat), longitude := Some(lon)),
         geoLocationLookupSuccess := true,
         geoRequests := s.geoRequests - 1)
    case GeolocationFailed =>
      s.(geoLocationLookupFailed := true, geoRequests := s.geoRequests - 1, domUpdates := s.domUpdates + 1)
  }

  lemma NextKeepsValid(s: LegacyState, e: Event)
    requires ValidState(s) && Enabled(s, e)
    ensures ValidState(Next(s, e))
  {
  }

  /**
   * `updateWeather` stops after a failed lookup, retries after exactly
   * 1000 ms while a lookup is outstanding, and otherwise sends exactly one
   * request to the fixed endpoint.
   */
  lemma UpdateWeatherOutcomes(s: LegacyState)
    ensures s.geoLocationLookupFailed ==> UpdateWeatherStep(s) == s
    ensures !s.geoLocationLookupFailed && ShouldLookup(s) && !s.geoLocationLookupSuccess ==>
      UpdateWeatherStep(s) == s.(timers := s.timers + [1000])
    ensures !s.geoLocationLookupFailed && !(ShouldLookup(s) && !s.geoLocationLookupSuccess) ==>
      UpdateWeatherStep(s).requests == s.requests + [RequestFor(s)] &&
      UpdateWeatherStep(s).pendingFetches == s.pendingFetches + 1 &&
      UpdateWeatherStep(s).timers == s.timers
  {
  }

  /**
   * A successful request stores the snapshot, marks the widget loaded, shows
   * the converted temperature and schedules the next cycle after
   * `updateInterval`; the lookup callbacks store the coordinates or the
   * failure, which no later event clears.
   */
  lemma CallbackOutcomes(s: LegacyState, data: Snapshot, lat: string, lon: string, e: Event)
    ensures s.pendingFetches > 0 && data.currently.Some? ==> var t := Next(s, FetchSucceeded(data));
      t.loaded && t.weatherData == Some(data) &&
      t.temp == Some(DisplayTemperature(s.config.units, data.currently.value.temperature)) &&
      t.timers == s.timers + [NextLoad(None, s.config.updateInterval)]
    ensures s.geoRequests > 0 ==> var t := Next(s, GeolocationSucceeded(lat, lon));
      t.geoLocationLookupSuccess && !ShouldLookup(t) &&
      t.config.latitude == Some(lat) && t.config.longitude == Some(lon)
    ensures s.geoRequests > 0 ==> Next(s, GeolocationFailed).geoLocationLookupFailed
    ensures s.geoLocationLookupFailed && Enabled(s, e) ==> Next(s, e).geoLocationLookupFailed
  {
  }

  predicate Admissible(s: LegacyState, es: seq<Event>)
    decreases |es|
  {
    es == [] || (Enabled(s, es[0]) && Admissible(Next(s, es[0]), es[1..]))
  }

  function Run(s: LegacyState, es: seq<Event>): LegacyState
    requires Admissible(s, es)
    decreases |es|
  {
    if es == [] then s else Run(Next(s, es[0]), es[1..])
  }

  lemma NextNeverAddsActivity(s: LegacyState, e: Event)
    requires Enabled(s, e) && e != Started
    ensures Activities(Next(s, e)) <= Activities(s)
    ensures e == FetchFailed ==> Activities(Next(s, e)) == Activities(s) - 1
  {
    if e.TimerFired? {
      assert |s.timers[..e.index] + s.timers[e.index + 1..]| == |s.timers| - 1;
    }
  }

  /**
   * With nothing outstanding, no event but `start` can bring the loop back:
   * nothing is ever scheduled or requested again.
   */
  lemma {:induction false} QuiescentStaysQuiet(s: LegacyState, es: seq<Event>)
    requires Activities(s) == 0 && Admissible(s, es) && Started !in es
    ensures Activities(Run(s, es)) == 0 && Run(s, es).requests == s.requests
    decreases |es|
  {
    if es != [] {
      NextNeverAddsActivity(s, es[0]);
      assert Next(s, es[0]).requests == s.requests;
      assert Started !in es[1..] by {
        assert forall k :: 0 <= k < |es[1..]| ==> es[1..][k] == es[k + 1];
      }
      QuiescentStaysQuiet(Next(s, es[0]), es[1..]);
    }
  }

  /**
   * A failed request ends polling for good: the request had no error
   * callback, so once it fails (with at most one thing outstanding, as after
   * `start`) nothing is ever scheduled or requested again.
   */
  lemma FetchFailureStopsPolling(s: LegacyState, es: seq<Event>)
    requires Activities(s) <= 1 && s.pendingFetches > 0
    requires Admissible(Next(s, FetchFailed), es) && Started !in es
    ensures Run(Next(s, FetchFailed), es).timers == []
    ensures Run(Next(s, FetchFailed), es).pendingFetches == 0
    ensures Run(Next(s, FetchFailed), es).requests == s.requests
  {
    NextNeverAddsActivity(s, FetchFailed);
    QuiescentStaysQuiet(Next(s, FetchFailed), es);
  }

  /**
   * From at most one outstanding timer or request, as `start` leaves it, no
   * sequence of events without another `start` ever makes two.
   */
  lemma {:induction false} SingleFlight(s: LegacyState, es: seq<Event>)
    requires Activities(s) <= 1 && Admissible(s, es) && Started !in es
    ensures Activities(Run(s, es)) <= 1 && Run(s, es).pendingFetches <= 1
    decreases |es|
  {
    if es != [] {
      NextNeverAddsActivity(s, es[0]);
      assert Started !in es[1..] by {
        assert forall k :: 0 <= k < |es[1..]| ==> es[1..][k] == es[k + 1];
      }
      SingleFlight(Next(s, es[0]), es[1..]);
    }
  }

  /**
   * After a failed lookup, with no request in flight, the loop is over for
   * good: whatever happens next, no request is ever sent and no timer is
   * ever added.
   */
  lemma {:induction false} GeolocationFailureStopsPolling(s: LegacyState, es: seq<Event>)
    requires s.geoLocationLookupFailed && s.pendingFetches == 0
    requires Admissible(s, es) && Started !in es
    ensures Run(s, es).requests == s.requests
    ensures Run(s, es).pendingFetches == 0
    ensures |Run(s, es).timers| <= |s.timers|
    decreases |es|
  {
    if es != [] {
      var t := Next(s, es[0]);
      if es[0].TimerFired? {
        var i := es[0].index;
        assert |s.timers[..i] + s.timers[i + 1..]| == |s.timers| - 1;
      }
      assert t.geoLocationLookupFailed && t.requests == s.requests && t.pendingFetches == 0;
      assert |t.timers| <= |s.timers|;
      assert Started !in es[1..] by {
        assert forall k :: 0 <= k < |es[1..]| ==> es[1..][k] == es[k + 1];
      }
      GeolocationFailureStopsPolling(t, es[1..]);
    }
  }

  /** The framework's one `start` leaves exactly one timer, at the initial delay, and nothing else outstanding. */
  lemma StartSchedulesOnce(config: Config)
    ensures Activities(Next(Initial(config), Started)) == 1
    ensures Next(Initial(config), Started).timers == [NextLoad(Some(config.initialLoadDelay), config.updateInterval)]
  {
  }

  // ---------------------------------------------------------------------------
  // getDom
  // ---------------------------------------------------------------------------

  datatype Content = Content(iconClass: Option<string>, temperature: Option<real>, summary: string)

  datatype View = View(status: Status, content: Option<Content>)

  /** The content view: the minutely icon's class, the stored temperature, the stripped summary. */
  predicate DescribesContent(s: LegacyState, c: Content)
    requires s.weatherData.Some?
  {
    var m := s.weatherData.value.minutely;
    && c.iconClass == (if m.icon in s.config.iconTable then Some(s.config.iconTable[m.icon]) else None)
    && c.temperature == s.temp
    && c.summary == StripFinalPeriod(m.summary)
  }

  // ---------------------------------------------------------------------------
  // The module object
  // ---------------------------------------------------------------------------

  class Widget {
    var config: Config
    var loaded: bool
    var weatherData: Option<Snapshot>
    var temp: Option<real>
    var geoLocationLookupSuccess: bool
    var geoLocationLookupFailed: bool
    var timers: seq<int>
    var pendingFetches: nat
    var requests: seq<string>
    var geoRequests: nat
    var domUpdates: nat

    ghost function State(): LegacyState
      reads this
    {
      LegacyState(config, loaded, weatherData, temp,
        geoLocationLookupSuccess, geoLocationLookupFailed,
        timers, pendingFetches, requests, geoRequests, domUpdates)
    }

    ghost predicate Valid()
      reads this
    {
      ValidState(State())
    }

    constructor (config: Config)
      ensures Valid() && State() == Initial(config)
    {
      this.config := config;
      loaded, weatherData, temp := false, None, None;
      geoLocationLookupSuccess, geoLocationLookupFailed := false, false;
      timers, pendingFetches, requests, geoRequests, domUpdates := [], 0, [], 0, 0;
    }

    function ShouldLookupGeolocation(): (b: bool)
      reads this
      ensures b <==> config.latitude.None? && config.longitude.None?
    {
      config.latitude == None && config.longitude == None
    }

    method ScheduleUpdate(delay: Option<int>)
      modifies this
      ensures State() == ScheduleUpdateStep(old(State()), delay)
    {
      var nextLoad := config.updateInterval;
      if delay.Some? && delay.value >= 0 {
        nextLoad := delay.value;
      }
      timers := timers + [nextLoad];
    }

    method Start()
      requires Valid()
      modifies this
      ensures Valid() && State() == Next(old(State()), Started)
    {
      if ShouldLookupGeolocation() {
        geoRequests := geoRequests + 1;  // getLocation
      }
      ScheduleUpdate(Some(config.initialLoadDelay));
    }

    method OnGeolocationSuccess(latitude: string, longitude: string)
      requires Valid() && geoRequests > 0
      modifies this
      ensures Valid() && State() == Next(old(State()), GeolocationSucceeded(latitude, longitude))
    {
      config := config.(latitude := Some(latitude), longitude := Some(longitude));
      geoLocationLookupSuccess := true;
      geoRequests := geoRequests - 1;
    }

    method OnGeolocationError()
      requires Valid() && geoRequests > 0
      modifies this
      ensures Valid() && State() == Next(old(State()), GeolocationFailed)
    {
      geoLocationLookupFailed := true;
      geoRequests := geoRequests - 1;
      domUpdates := domUpdates + 1;
    }

    method UpdateWeather()
      requires Valid()
      modifies this
      ensures Valid() && State() == UpdateWeatherStep(old(State()))
    {
      if geoLocationLookupFailed {
        return;
      }
      if ShouldLookupGeolocation() && !geoLocationLookupSuccess {
        ScheduleUpdate(Some(GeolocationRetryDelay));
        return;
      }
      var url := LegacyRequestUrl(config.apikey, CoordinateText(config.latitude), CoordinateText(config.longitude));
      requests := requests + [url];
      pendingFetches := pendingFetches + 1;
    }

    method TimerFires(index: nat)
      requires Valid() && index < |timers|
      modifies this
      ensures Valid() && State() == Next(old(State()), TimerFired(index))
    {
      timers := timers[..index] + timers[index + 1..];
      UpdateWeather();
    }

    method ProcessWeather(data: Snapshot)
      requires Valid()
      modifies this
      ensures Valid() && State() == ProcessWeatherStep(old(State()), data)
    {
      loaded := true;
      weatherData := Some(data);
      if data.currently.None? {
        return;  // `currently.temperature` throws here
      }
      var t := data.currently.value.temperature;
      if config.units == "metric" {
        t := (t - 32.0) / 1.8;
      }
      temp := Some(MathRound(t));
      domUpdates := domUpdates + 1;
      ScheduleUpdate(None);
    }

    method OnFetchSuccess(data: Snapshot)
      requires Valid() && pendingFetches > 0
      modifies this
      ensures Valid() && State() == Next(old(State()), FetchSucceeded(data))
    {
      pendingFetches := pendingFetches - 1;
      ProcessWeather(data);
    }

    /** The request fails: no callback was registered for this. */
    method OnFetchError()
      requires Valid() && pendingFetches > 0
      modifies this
      ensures Valid() && State() == Next(old(State()), FetchFailed)
    {
      pendingFetches := pendingFetches - 1;
    }

    method GetDom() returns (v: View)
      requires Valid()
      ensures v.status == DisplayStatus(config.apikey == "", geoLocationLookupFailed, loaded)
      ensures v.content.Some? <==> v.status == Ready
      ensures v.content.Some? ==> DescribesContent(State(), v.content.value)
    {
      var status := DisplayStatus(config.apikey == "", geoLocationLookupFailed, loaded);
      if status != Ready {
        return View(status, None);
      }
      var minutely := weatherData.value.minutely;
      var iconClass := if minutely.icon in config.iconTable then Some(config.iconTable[minutely.icon]) else None;
      v := View(status, Some(Content(iconClass, temp, StripFinalPeriod(minutely.summary))));
    }
  }
}
