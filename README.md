# Forecast widget polling core, in Dafny

This project models two versions of a MagicMirror weather widget. `MMM-forecast-io.js` is the newer one and `MM-forecast-io.js` the older. Each widget polls the Dark Sky (formerly forecast.io) API on a timer. It resolves its location through browser geolocation when no coordinates are configured, and renders current conditions, a precipitation graph and a forecast table.

The model covers the logic that drives the widget's mutable state and the pure derivations the view is built from:

- **Polling loop.** It is modelled as a state machine per version: `ForecastWidget.WidgetState` and `LegacyWidget.LegacyState`. Transitions are `Next(s, e)` over the events that can reach the module object:
  - the framework's `start`
  - a timer firing
  - the JSONP request succeeding or failing
  - the geolocation lookup succeeding or failing
  - a notification (newer version only)

  Each version has a `Widget` class with the module object's own fields. Every method is proved to move those fields exactly as the matching transition says. The environment is abstract state on the same object:
  - `timers`: the delays of pending `setTimeout` callbacks. None is ever cancelled.
  - `pendingFetches`: unanswered `getJSONP` requests.
  - `requests`: every URL requested.
  - `geoRequests`: unanswered `getCurrentPosition` calls.
  - `domUpdates`: calls to `updateDom`.
- **Single flight.** The code has no in-flight guard and no timer cancellation. Even so, every event except `start` consumes at least as much outstanding work as it creates. So after the one `start`, there is never more than one pending timer or request (`SingleFlight`).
- **Pure derivations (newer version):**
  - the units parameter with its `'auto'` fallback
  - the request URL, with a parser proving that the URL determines its parameters
  - the precipitation scan and the graph's scale top
  - the forecast window and its temperature envelope
  - `roundTemp`, whose scale is `1 << places`: a power of two with JavaScript's 32-bit shift, not a power of ten
- **Pure derivations (older version):** the fixed endpoint URL, the Fahrenheit-to-Celsius conversion, and the removal of one final period from the summary.

Temperatures, probabilities and intensities are `real`, so orderings and rounding are exact. `Math.round` is `floor(x + 0.5)`, which rounds halves toward +infinity. Coordinates are opaque strings, and a missing one is rendered as `null`, as string concatenation does.

Several behaviours are modelled as the code has them, which may differ from what one would expect of such a widget:

- A failed request in the newer version retries after `updateInterval`. `retryDelay` is declared but never read.
- A new timer never replaces or cancels an earlier one.
- An empty API key still sends requests. Only the view changes.
- A failed geolocation lookup stops polling for good.
- The older version registers no error callback, so one failed request ends polling.
- `roundTemp` rounds to binary places. `tempDecimalPlaces = 1` rounds to halves, not tenths. A value with places mod 32 = 31 (such as -1) makes the scale -2^31, and then a half step rounds down.
- The forecast table's bounds are rounded with `Math.round`, but its rows with `roundTemp`. With fractional places a row can fall outside the bounds (`RowsCanCrossEnvelope`).
- A lookup happens only when both coordinates are missing. With only one configured, the request is sent with `null` in its place.
- A response without `currently` sets `loaded` and `weatherData`, then throws before `scheduleUpdate`, which stops polling. The newer `getDom` then falls back to the hourly icon.

## Model

| member | source | states |
|---|---|---|
| WidgetCommon.NextLoad | MMM-forecast-io.js:411-416 | the delay given to `setTimeout` is the requested delay when it is given and not negative, else `updateInterval` (non-negative whenever the interval is) |
| WidgetCommon.CoordinateText | MMM-forecast-io.js:97 | a configured coordinate appears verbatim in the URL, a missing one as "null" |
| WidgetCommon.DisplayStatus | MMM-forecast-io.js:141-157 | each of the four views holds exactly when its own condition holds and every earlier one fails: empty key, then failed lookup, then not loaded, then content |
| WidgetCommon.MathRound | MMM-forecast-io.js:405 | `Math.round` gives the integer within half of its argument, a half going up |
| ForecastData.UnitParameter | MMM-forecast-io.js:95 | the units parameter is the table's non-empty entry for the configured units, else "auto"; it is never empty |
| ForecastData.RequestUrl | MMM-forecast-io.js:97 | the request URL reads back into exactly the key, latitude, longitude, units and language it was built from, when each is free of the separator after it |
| ForecastData.ShiftScalar | MMM-forecast-io.js:402 | `1 << places` is 2^(places mod 32), except -2^31 when places mod 32 is 31 |
| ForecastData.ShiftScalarIsInt32Shift | MMM-forecast-io.js:402 | the scale equals the 32-bit word `1 << (places mod 32)` read as a two's-complement integer |
| ForecastData.RoundTemp | MMM-forecast-io.js:401-409 | the result lies within half a step of 1/abs(s) of the input, s being `1 << places`; a half step rounds up when s is positive and down when s is negative (places mod 32 = 31) |
| ForecastData.RoundTempWholeSteps | MMM-forecast-io.js:401-409 | the result times s is `Math.round` of the input times s: a whole number of 1/s steps, for either sign of s |
| ForecastData.RoundTempIdempotent | MMM-forecast-io.js:401-409 | rounding an already rounded temperature with the same places changes nothing |
| ForecastData.RoundTempZeroPlaces | MMM-forecast-io.js:401-409 | with zero places (the default) `roundTemp` is `Math.round` |
| ForecastData.IsAnyPrecipitation | MMM-forecast-io.js:209-221 | true exactly when `minutely` is present and some minute's probability is strictly above the threshold |
| ForecastData.ShowsPrecipitationGraph | MMM-forecast-io.js:196-198 | the graph is drawn whenever it is forced, and whenever it is enabled and some minute of a present `minutely` is above the threshold; otherwise (disabled, no `minutely`, or every minute at or below the threshold) it is not |
| ForecastData.PrecipitationScaleTop | MMM-forecast-io.js:267-275 | the scale top is at least the configured top, at least 0 and at least every intensity, and equals one of them |
| ForecastData.ForecastWindow | MMM-forecast-io.js:353-357 | the window holds the first min(maxDays, days) days (none for a negative limit), each equal to the day at the same index |
| ForecastData.TemperatureEnvelope | MMM-forecast-io.js:359-365 | before rounding, `min` is at most `Number.MAX_VALUE` and every day's low, and is one of those lows unless it is still `Number.MAX_VALUE`; `max` is the same for `-Number.MAX_VALUE` and the highs |
| ForecastData.RenderWeatherForecast | MMM-forecast-io.js:352-377 | one row per day of the window, in order, with `roundTemp`-ed temperatures; the table's `min` is the least `Math.round`-ed low of the window and `max` the greatest `Math.round`-ed high (the rounded start values when nothing undercuts them, as for no days) |
| ForecastData.RowsCanCrossEnvelope | MMM-forecast-io.js:298-302 | with one binary place a day whose low is 9.6 gets a row low of 9.5 but a table minimum of 10, so the row falls outside the bounds its bar is scaled to |
| ForecastData.RowsWithinEnvelope | MMM-forecast-io.js:298-302 | with zero decimal places each row's rounded low and high lie inside the table's bounds, so neither spacer width is negative |
| ForecastWidget.Defaults | MMM-forecast-io.js:3-50 | with the default table "metric" requests "si", "imperial" "us" and any other units "auto"; updates come every 300000 ms; the location is looked up; `roundTemp` is `Math.round` |
| ForecastWidget.NextKeepsValid | MMM-forecast-io.js:110-112 | every event keeps `loaded` equivalent to having a snapshot, keeps `temp` only when loaded, and keeps coordinates set after a successful lookup |
| ForecastWidget.UpdateWeatherOutcomes | MMM-forecast-io.js:86-104 | after a failed lookup nothing changes; while a lookup is needed and unsuccessful one 1000 ms timer is added and nothing is fetched; otherwise exactly one request for the built URL is sent and no timer added, or the canned response is processed |
| ForecastWidget.EmptyApiKeyStillFetches | MMM-forecast-io.js:95-103 | with an empty key, once no lookup is awaited, a request is still sent and the resulting state shows the configuration message |
| ForecastWidget.EmptyApiKeyInUrl | MMM-forecast-io.js:97 | the URL requested with an empty key parses back with that empty key and the state's coordinate texts, units parameter and language |
| ForecastWidget.FetchSuccessOutcome | MMM-forecast-io.js:106-115 | a response replaces the snapshot and sets `loaded`; with `currently` it stores the rounded temperature and schedules one timer at `updateInterval`; without it nothing is scheduled |
| ForecastWidget.FetchFailureOutcome | MMM-forecast-io.js:117-123 | a failed request only adds one timer at `updateInterval`; the result is the same whatever `retryDelay` is |
| ForecastWidget.GeolocationOutcomes | MMM-forecast-io.js:379-398 | `start` asks for the location exactly when both coordinates are missing; success stores both and ends the need for a lookup; failure sets the flag, and no later event clears it |
| ForecastWidget.NextNeverAddsActivity | MMM-forecast-io.js:411-421 | no event other than `start` increases the number of pending timers plus unanswered requests |
| ForecastWidget.SingleFlight | MMM-forecast-io.js:86-123 | from at most one outstanding timer or request, any events but `start` keep it so; two requests are never in flight together |
| ForecastWidget.StartSchedulesOnce | MMM-forecast-io.js:72-84 | `start` on a fresh module leaves exactly one timer, at the initial load delay, and nothing else outstanding |
| ForecastWidget.GeolocationFailureStopsPolling | MMM-forecast-io.js:86-89 | after a failed lookup with nothing in flight, no sequence of events sends another request or adds a timer |
| ForecastWidget.Widget.ShouldLookupGeolocation | MMM-forecast-io.js:67-70 | true exactly when both coordinates are missing |
| ForecastWidget.Widget.Start | MMM-forecast-io.js:72-84 | copies the old graph option, starts a lookup when needed, schedules the first update; the new state is the `start` transition's |
| ForecastWidget.Widget.GetLocation | MMM-forecast-io.js:379-381 | one more lookup is outstanding; nothing else changes |
| ForecastWidget.Widget.OnGeolocationSuccess | MMM-forecast-io.js:382-389 | stores both coordinates and sets the success flag, as the transition says |
| ForecastWidget.Widget.OnGeolocationError | MMM-forecast-io.js:390-396 | sets the failed flag and re-renders, as the transition says |
| ForecastWidget.Widget.UpdateWeather | MMM-forecast-io.js:86-104 | moves the fields exactly as `updateWeather`'s transition: stop, retry in 1000 ms, fetch, or process the canned response |
| ForecastWidget.Widget.TimerFires | MMM-forecast-io.js:417-420 | removes the fired timer and runs `updateWeather` |
| ForecastWidget.Widget.ProcessWeather | MMM-forecast-io.js:106-115 | sets `loaded`, replaces the snapshot, stores `roundTemp` of the current temperature, re-renders and schedules at `updateInterval` |
| ForecastWidget.Widget.ProcessWeatherError | MMM-forecast-io.js:117-123 | only schedules the next update at `updateInterval` |
| ForecastWidget.Widget.OnFetchSuccess | MMM-forecast-io.js:102 | the request is answered and its data processed |
| ForecastWidget.Widget.OnFetchError | MMM-forecast-io.js:102 | the request is answered and the error path schedules the next update |
| ForecastWidget.Widget.NotificationReceived | MMM-forecast-io.js:125-136 | an indoor temperature is stored and rendered only when enabled; every other notification changes nothing |
| ForecastWidget.Widget.ScheduleUpdate | MMM-forecast-io.js:411-421 | appends exactly one timer with the chosen delay; no earlier timer is removed |
| ForecastWidget.Widget.GetDom | MMM-forecast-io.js:138-207 | the view follows the fixed precedence; when loaded it shows the current (else hourly) icon, the stored temperatures, the minutely (else hourly) summary, the graph exactly when forced or enabled with precipitation, with a valid scale top, and the forecast exactly when enabled |
| LegacyWidget.LegacyRequestUrl | MM-forecast-io.js:71 | the fixed-endpoint URL reads back into exactly its key, latitude and longitude, given a key without '/' and a latitude without ',' |
| LegacyWidget.DisplayTemperature | MM-forecast-io.js:81-85 | the shown temperature is a whole number within half a degree of the Celsius value `(t - 32) / 1.8` when units are "metric", and of `t` otherwise |
| LegacyWidget.DisplayTemperatureRoundTrip | MM-forecast-io.js:81-85 | a whole Celsius value sent as Fahrenheit shows unchanged in metric; a whole Fahrenheit value shows unchanged otherwise |
| LegacyWidget.DisplayTemperatureMonotone | MM-forecast-io.js:81-85 | a warmer reading is never shown colder |
| LegacyWidget.StripFinalPeriod | MM-forecast-io.js:128 | a summary ending in '.' loses exactly that one character; any other summary is unchanged |
| LegacyWidget.StripFinalPeriodUndoesAppend | MM-forecast-io.js:128 | stripping a summary with one period appended gives the summary back |
| LegacyWidget.StripFinalPeriodNotIdempotent | MM-forecast-io.js:128 | "Rain.." becomes "Rain.", and stripping again changes the result |
| LegacyWidget.NextKeepsValid | MM-forecast-io.js:79-81 | every event keeps `loaded` equivalent to having a snapshot, and coordinates set after a successful lookup |
| LegacyWidget.UpdateWeatherOutcomes | MM-forecast-io.js:60-73 | after a failed lookup nothing changes; while a lookup is outstanding exactly one 1000 ms timer is added; otherwise exactly one request to the fixed endpoint is sent |
| LegacyWidget.CallbackOutcomes | MM-forecast-io.js:75-88 | a response sets `loaded`, replaces the snapshot, shows the converted temperature and schedules at `updateInterval`; the lookup callbacks store the coordinates or the failure, and no later event clears a failure |
| LegacyWidget.NextNeverAddsActivity | MM-forecast-io.js:160-170 | no event but `start` adds outstanding work, and a failed request removes one item of it |
| LegacyWidget.QuiescentStaysQuiet | MM-forecast-io.js:60-73 | with nothing outstanding, no sequence of events without `start` schedules or requests anything |
| LegacyWidget.FetchFailureStopsPolling | MM-forecast-io.js:72 | after a failed request, with at most one thing outstanding before it, no timer or request ever follows |
| LegacyWidget.GeolocationFailureStopsPolling | MM-forecast-io.js:60-63 | after a failed lookup with nothing in flight, no sequence of events sends another request or adds a timer |
| LegacyWidget.SingleFlight | MM-forecast-io.js:60-88 | from at most one outstanding timer or request, events other than `start` keep it so |
| LegacyWidget.StartSchedulesOnce | MM-forecast-io.js:51-58 | `start` on a fresh module leaves exactly one timer, at the initial load delay, and nothing else outstanding |
| LegacyWidget.Widget.ShouldLookupGeolocation | MM-forecast-io.js:47-49 | true exactly when both coordinates are missing |
| LegacyWidget.Widget.Start | MM-forecast-io.js:51-58 | starts a lookup when both coordinates are missing and schedules the first update |
| LegacyWidget.Widget.OnGeolocationSuccess | MM-forecast-io.js:142-149 | stores both coordinates and sets the success flag |
| LegacyWidget.Widget.OnGeolocationError | MM-forecast-io.js:150-156 | sets the failed flag and re-renders |
| LegacyWidget.Widget.UpdateWeather | MM-forecast-io.js:60-73 | moves the fields exactly as the transition: stop, retry in 1000 ms, or one request to the fixed endpoint |
| LegacyWidget.Widget.TimerFires | MM-forecast-io.js:166-169 | removes the fired timer and runs `updateWeather` |
| LegacyWidget.Widget.ProcessWeather | MM-forecast-io.js:75-88 | sets `loaded`, replaces the snapshot, stores the converted and rounded temperature, re-renders and schedules at `updateInterval` |
| LegacyWidget.Widget.OnFetchSuccess | MM-forecast-io.js:72 | the request is answered and its data processed |
| LegacyWidget.Widget.OnFetchError | MM-forecast-io.js:72 | the request is answered and nothing else happens; no callback was registered |
| LegacyWidget.Widget.ScheduleUpdate | MM-forecast-io.js:160-170 | appends exactly one timer with the chosen delay |
| LegacyWidget.Widget.GetDom | MM-forecast-io.js:90-137 | the view follows the precedence on the lower-case `apikey`; when loaded it shows the minutely icon's class, the stored temperature and the summary without its final period |

## Left out

- DOM construction, CSS classes and canvas drawing. This covers the tick and grid lines, the per-minute bar heights and fill in `renderPrecipitationGraph` (MMM-forecast-io.js:224-266, 277-290), and the spacer and bar widths in `renderForecastRow` (MMM-forecast-io.js:298-350). The model keeps the data these are drawn from: the graph's scale top, the rows' rounded temperatures and the table's bounds.
- `getDayFromTime` (MMM-forecast-io.js:293-296). It depends on `Date` and the locale data of `moment`. Forecast rows keep the raw `time`.
- `getJSONP`, `navigator.geolocation.getCurrentPosition`, `setTimeout` and `updateDom` are external. They are events and counters on the model state, not I/O or time. Which pending timer fires first is not modelled: any pending timer may fire. `jsonp.js` is not part of this model: the model assumes every request is answered by exactly one callback (success or failure), and `SingleFlight` and `FetchFailureStopsPolling` rest on that assumption.
- `getScripts`, `getStyles`, `getTranslations`, `translate`, `Log.info`, the `debug` logging, `animationSpeed`, `precipitationGraphWidth` and `precipitationFillColor` are framework glue or presentation.
- IEEE-754 doubles. Temperatures are exact reals, so `roundTemp` and `Math.round` have no floating-point error, and `NaN` and infinities do not occur. Coordinates are opaque strings, not formatted numbers.
- Responses that lack fields other than `currently`. The newer `hourly` and `daily` and the older `minutely` are always present in the model; without them the source throws in `getDom`.
- ForecastWidget.Widget.GetDom: when `alwaysShowPrecipitationGraph` is set and the response has no `minutely`, the source throws inside `renderPrecipitationGraph`. The model shows no graph in that case.
- Whether `getDom`'s exceptions, and the one after `processWeather` sets `loaded`, stop anything beyond what is modelled. The model takes them to end the current callback only.
- The framework is taken to call `start` once per module object. The loop lemmas cover event sequences without a second `start`.
