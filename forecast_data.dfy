/**
 * The pure derivations of the newer widget (MMM-forecast-io.js): the weather
 * document it reads, the request URL, the precipitation scan and scale, the
 * forecast window with its temperature envelope, and `roundTemp`.
 */
module ForecastData {
  import opened Wrappers
  import opened WidgetCommon

  // ---------------------------------------------------------------------------
  // The weather document (only the fields the widget reads)
  // ---------------------------------------------------------------------------

  datatype Currently = Currently(temperature: real, icon: string)
  datatype Hourly = Hourly(icon: string, summary: string)
  datatype MinuteEntry = MinuteEntry(precipProbability: real, precipIntensity: real)
  datatype Minutely = Minutely(summary: string, data: seq<MinuteEntry>)
  datatype DayEntry = DayEntry(time: int, icon: string, temperatureMin: real, temperatureMax: real)

  /** One parsed response; `currently` and `minutely` may be missing. */
  datatype Snapshot = Snapshot(
    currently: Option<Currently>,
    hourly: Hourly,
    minutely: Option<Minutely>,
    daily: seq<DayEntry>)

  /** JavaScript's `Number.MAX_VALUE`, the largest finite double, written out exactly. */
  const MaxValue: real := 179769313486231570814527423731704356798070567525844996598917476803157260780028538760589558632766878171540458953514382464234321326889464182768467546703537516986049910576551282076245490090389328944075868508455133942304583236903222948165808559332123348274797826204144723168738177180919299881250404026184124858368.0

  // ---------------------------------------------------------------------------
  // Units and the request URL
  // ---------------------------------------------------------------------------

  /**
   * `unitTable[units] || 'auto'`: the table's entry for the configured units,
   * or "auto" when there is none or it is the empty (falsy) string.
   */
  function UnitParameter(unitTable: map<string, string>, units: string): (r: string)
    ensures units in unitTable && unitTable[units] != "" ==> r == unitTable[units]
    ensures units !in unitTable || unitTable[units] == "" ==> r == "auto"
    ensures r != ""
  {
    if units in unitTable && unitTable[units] != "" then unitTable[units] else "auto"
  }

  /** The parts a request URL carries. */
  datatype RequestParts = RequestParts(
    apiKey: string, latitude: string, longitude: string, units: string, language: string)

  /**
   * `apiBase + '/' + apiKey + '/' + lat + ',' + lon + '?units=' + units + '&lang=' + language`.
   * The URL determines every parameter it was built from, as long as each
   * part is free of the separator that ends it.
   */
  function RequestUrl(apiBase: string, p: RequestParts): (url: string)
    ensures '/' !in p.apiKey && ',' !in p.latitude && '?' !in p.longitude && '&' !in p.units ==>
      ParseRequestUrl(apiBase, url) == Some(p)
  {
    var query := "units=" + p.units + "&lang=" + p.language;
    var path := p.apiKey + "/" + p.latitude + "," + p.longitude + "?" + query;
    if '/' !in p.apiKey && ',' !in p.latitude && '?' !in p.longitude && '&' !in p.units then
      StripPrefixJoin(apiBase + "/", path);
      PathRoundTrip(p.apiKey, p.latitude, p.longitude, query);
      QueryRoundTrip(p.units, p.language);
      (apiBase + "/") + path
    else
      (apiBase + "/") + path
  }

  /** Reads `units=<units>&lang=<language>` back into its two values. */
  function ParseQuery(query: string): Option<(string, string)> {
    match StripPrefix(query, "units=")
    case None => None
    case Some(rest) =>
      match SplitFirst(rest, '&')
      case None => None
      case Some(unitsAndRest) =>
        match StripPrefix(unitsAndRest.1, "lang=")
        case None => None
        case Some(language) => Some((unitsAndRest.0, language))
  }

  lemma QueryRoundTrip(units: string, language: string)
    requires '&' !in units
    ensures ParseQuery("units=" + units + "&lang=" + language) == Some((units, language))
  {
    var tail := "lang=" + language;
    assert "units=" + units + "&lang=" + language == "units=" + (units + "&" + tail);
    StripPrefixJoin("units=", units + "&" + tail);
    SplitFirstJoin(units, '&', tail);
    StripPrefixJoin("lang=", language);
  }

  /** Reads `<key>/<lat>,<lon>?<query>` back into its four parts. */
  function ParsePath(path: string): Option<(string, string, string, string)> {
    match SplitFirst(path, '/')
    case None => None
    case Some(keyAndRest) =>
      match SplitFirst(keyAndRest.1, ',')
      case None => None
      case Some(latAndRest) =>
        match SplitFirst(latAndRest.1, '?')
        case None => None
        case Some(lonAndRest) => Some((keyAndRest.0, latAndRest.0, lonAndRest.0, lonAndRest.1))
  }

  lemma PathRoundTrip(key: string, lat: string, lon: string, query: string)
    requires '/' !in key && ',' !in lat && '?' !in lon
    ensures ParsePath(key + "/" + lat + "," + lon + "?" + query) == Some((key, lat, lon, query))
  {
    var afterLat := lon + "?" + query;
    var afterKey := lat + "," + afterLat;
    assert key + "/" + lat + "," + lon + "?" + query == key + "/" + afterKey;
    SplitFirstJoin(key, '/', afterKey);
    SplitFirstJoin(lat, ',', afterLat);
    SplitFirstJoin(lon, '?', query);
  }

  /** Reads a request URL for the given base back into its parts. */
  function ParseRequestUrl(apiBase: string, url: string): Option<RequestParts> {
    match StripPrefix(url, apiBase + "/")
    case None => None
    case Some(path) =>
      match ParsePath(path)
      case None => None
      case Some(parts) =>
        match ParseQuery(parts.3)
        case None => None
        case Some(q) => Some(RequestParts(parts.0, parts.1, parts.2, q.0, q.1))
  }

  // ---------------------------------------------------------------------------
  // roundTemp
  // ---------------------------------------------------------------------------

  function Pow2(n: nat): (r: int)
    ensures r >= 1
  {
    if n == 0 then 1 else 2 * Pow2(n - 1)
  }

  /**
   * `1 << places` with JavaScript's 32-bit shift: the count is taken modulo
   * 32 and bit 31 is the sign bit.
   */
  function ShiftScalar(places: int): (r: int)
    ensures places % 32 != 31 ==> r == Pow2(places % 32) && r > 0
    ensures places % 32 == 31 ==> r == -0x8000_0000
  {
    var count := places % 32;
    if count == 31 then -0x8000_0000 else Pow2(count)
  }

  /** A 32-bit word read as a two's-complement integer, as JavaScript's shifts produce. */
  function Signed32(w: bv32): int {
    if w < 0x8000_0000 then w as int else w as int - 0x1_0000_0000
  }

  /** `ShiftScalar` is the 32-bit shift `1 << (places mod 32)` read as a signed integer. */
  lemma ShiftScalarIsInt32Shift(places: int)
    ensures ShiftScalar(places) == Signed32((1 as bv32) << (places % 32))
  {
    var k := places % 32;
    if k == 31 {
      assert (1 as bv32) << 31 == 0x8000_0000;
    } else {
      ShiftIsPow2(k);
      ShiftBelowSign(k);
    }
  }

  lemma {:induction false} ShiftIsPow2(k: nat)
    requires k < 31
    ensures ((1 as bv32) << k) as int == Pow2(k)
  {
    if k > 0 {
      ShiftIsPow2(k - 1);
      ShiftedOnce(k);
    }
  }

  lemma ShiftedOnce(k: nat)
    requires 0 < k < 31
    ensures ((1 as bv32) << k) as int == 2 * ((1 as bv32) << (k - 1)) as int
  {
    var w := (1 as bv32) << (k - 1);
    assert (1 as bv32) << k == w << 1;
    ShiftedWordBelow(k - 1);
    DoubleWord(w);
  }

  lemma ShiftedWordBelow(j: nat)
    requires j < 30
    ensures (1 as bv32) << j < 0x4000_0000
  {
  }

  lemma ShiftBelowSign(k: nat)
    requires k < 31
    ensures (1 as bv32) << k < 0x8000_0000
  {
  }

  lemma DoubleWord(w: bv32)
    requires w < 0x4000_0000
    ensures (w << 1) as int == 2 * (w as int)
  {
  }

  /**
   * `roundTemp`: scale by `1 << places`, `Math.round`, scale back. The scale
   * s is a power of two, so `places` counts binary, not decimal, digits. The
   * result is a whole number of 1/|s| steps within half a step of the input;
   * a half step rounds up when s is positive and down when it is negative
   * (`places % 32 == 31`).
   */
  function RoundTemp(t: real, places: int): (r: real)
    ensures var s := ShiftScalar(places) as real;
      && (s > 0.0 ==> t - 0.5 / s < r <= t + 0.5 / s)
      && (s < 0.0 ==> t + 0.5 / s <= r < t - 0.5 / s)
  {
    var s := ShiftScalar(places) as real;
    if s > 0.0 then
      ScaledRoundBounds(t, s);
      ScaledRound(t, s)
    else
      ScaledRoundBoundsNegative(t, s);
      ScaledRound(t, s)
  }

  /** `Math.round(t * scalar) / scalar`. */
  function ScaledRound(t: real, scalar: real): real
    requires scalar != 0.0
  {
    MathRound(t * scalar) / scalar
  }

  lemma DivideStrictly(a: real, b: real, s: real)
    requires s > 0.0 && a < b
    ensures a / s < b / s
  {
    assert a / s * s == a && b / s * s == b;
  }

  lemma DivideWeakly(a: real, b: real, s: real)
    requires s > 0.0 && a <= b
    ensures a / s <= b / s
  {
    assert a / s * s == a && b / s * s == b;
  }

  lemma DivideThenMultiply(m: real, s: real)
    requires s != 0.0
    ensures m / s * s == m
  {
  }

  /** Rounding at a positive scale lands within half a scaled step of the input. */
  lemma ScaledRoundBounds(t: real, s: real)
    requires s > 0.0
    ensures t - 0.5 / s < ScaledRound(t, s) <= t + 0.5 / s
  {
    var m := MathRound(t * s);
    DivideStrictly(t * s - 0.5, m, s);
    DivideWeakly(m, t * s + 0.5, s);
    assert (t * s - 0.5) / s == t - 0.5 / s;
    assert (t * s + 0.5) / s == t + 0.5 / s;
  }

  /** At a negative scale the bounds flip: a half step rounds toward -infinity. */
  lemma ScaledRoundBoundsNegative(t: real, s: real)
    requires s < 0.0
    ensures t + 0.5 / s <= ScaledRound(t, s) < t - 0.5 / s
  {
    var m := MathRound(t * s);
    DivideWeakly(-(t * s) - 0.5, -m, -s);
    DivideStrictly(-m, -(t * s) + 0.5, -s);
    assert (-(t * s) - 0.5) / -s == t + 0.5 / s;
    assert (-(t * s) + 0.5) / -s == t - 0.5 / s;
    assert -m / -s == m / s;
  }

  /** Rounding at any scale gives a whole number of scaled steps. */
  lemma ScaledRoundIsWhole(t: real, s: real)
    requires s != 0.0
    ensures ScaledRound(t, s) * s == MathRound(t * s)
  {
    var m := MathRound(t * s);
    assert ScaledRound(t, s) == m / s;
    DivideThenMultiply(m, s);
  }

  lemma ScaledRoundOfWhole(r: real, s: real, k: int)
    requires s != 0.0 && r * s == k as real
    ensures ScaledRound(r, s) == k as real / s
  {
    MathRoundOfInteger(k);
  }

  lemma ScaledRoundIdempotent(t: real, s: real)
    requires s != 0.0
    ensures ScaledRound(ScaledRound(t, s), s) == ScaledRound(t, s)
  {
    var k := (t * s + 0.5).Floor;
    assert MathRound(t * s) == k as real;
    ScaledRoundIsWhole(t, s);
    ScaledRoundOfWhole(ScaledRound(t, s), s, k);
  }

  /** `roundTemp` gives a whole number of 1/s steps, whatever the sign of the scale s. */
  lemma RoundTempWholeSteps(t: real, places: int, s: real)
    requires s == ShiftScalar(places) as real
    ensures RoundTemp(t, places) * s == MathRound(t * s)
  {
    assert RoundTemp(t, places) == ScaledRound(t, s);
    ScaledRoundIsWhole(t, s);
  }

  /** Rounding an already rounded temperature changes nothing, whatever `places` is. */
  lemma RoundTempIdempotent(t: real, places: int)
    ensures RoundTemp(RoundTemp(t, places), places) == RoundTemp(t, places)
  {
    ScaledRoundIdempotent(t, ShiftScalar(places) as real);
  }

  /** With the default of zero places, `roundTemp` is plain `Math.round`. */
  lemma RoundTempZeroPlaces(t: real)
    ensures RoundTemp(t, 0) == MathRound(t)
  {
    assert ShiftScalar(0) == 1;
  }

  // ---------------------------------------------------------------------------
  // The precipitation graph
  // ---------------------------------------------------------------------------

  /** Some minute of the block is more likely than `threshold` to see precipitation. */
  predicate Precipitates(minutely: Option<Minutely>, threshold: real) {
    minutely.Some? &&
    exists i :: 0 <= i < |minutely.value.data| && minutely.value.data[i].precipProbability > threshold
  }

  /** `isAnyPrecipitation`: scans the minutes until one exceeds the threshold. */
  method IsAnyPrecipitation(minutely: Option<Minutely>, threshold: real) returns (any: bool)
    ensures any <==> Precipitates(minutely, threshold)
  {
    if minutely.None? {
      return false;
    }
    var data := minutely.value.data;
    var i := 0;
    while i < |data|
      invariant 0 <= i <= |data|
      invariant forall j :: 0 <= j < i ==> data[j].precipProbability <= threshold
    {
      if data[i].precipProbability > threshold {
        return true;
      }
      i := i + 1;
    }
    return false;
  }

  /**
   * `getDom` draws the graph when it is forced, or when it is enabled and
   * some minute of a present `minutely` block is above the threshold; never
   * otherwise.
   */
  function ShowsPrecipitationGraph(
    alwaysShow: bool, enabled: bool, minutely: Option<Minutely>, threshold: real): (shown: bool)
    ensures alwaysShow ==> shown
    ensures enabled && minutely.Some? &&
      (exists i :: 0 <= i < |minutely.value.data| && minutely.value.data[i].precipProbability > threshold)
      ==> shown
    ensures !alwaysShow && (!enabled || minutely.None?) ==> !shown
    ensures !alwaysShow && minutely.Some? &&
      (forall i :: 0 <= i < |minutely.value.data| ==> minutely.value.data[i].precipProbability <= threshold)
      ==> !shown
  {
    alwaysShow || (enabled && Precipitates(minutely, threshold))
  }

  /**
   * `top` is the maximum of 0, the configured scale top and every intensity:
   * it bounds all of them and is one of them.
   */
  predicate IsScaleTop(top: real, data: seq<MinuteEntry>, scaleTop: real) {
    && top >= scaleTop && top >= 0.0
    && (forall i :: 0 <= i < |data| ==> data[i].precipIntensity <= top)
    && (top == scaleTop || top == 0.0 || exists i :: 0 <= i < |data| && top == data[i].precipIntensity)
  }

  /**
   * The top of the graph's scale in `renderPrecipitationGraph`: the largest
   * intensity (the scan starts from 0), raised to the configured scale top
   * when below it.
   */
  method PrecipitationScaleTop(data: seq<MinuteEntry>, scaleTop: real) returns (top: real)
    ensures IsScaleTop(top, data, scaleTop)
  {
    var maxIntensity := 0.0;
    var i := 0;
    while i < |data|
      invariant 0 <= i <= |data|
      invariant maxIntensity >= 0.0
      invariant forall j :: 0 <= j < i ==> data[j].precipIntensity <= maxIntensity
      invariant maxIntensity == 0.0 || exists j :: 0 <= j < i && maxIntensity == data[j].precipIntensity
    {
      if data[i].precipIntensity > maxIntensity {
        maxIntensity := data[i].precipIntensity;
      }
      i := i + 1;
    }
    if maxIntensity < scaleTop {
      maxIntensity := scaleTop;
    }
    top := maxIntensity;
  }

  // ---------------------------------------------------------------------------
  // The forecast table
  // ---------------------------------------------------------------------------

  /**
   * `daily.data.filter((d, i) => i < maxDays)`: the first `maxDays` days (none
   * when it is negative), in their original order.
   */
  function ForecastWindow(days: seq<DayEntry>, maxDays: int): (w: seq<DayEntry>)
    ensures |w| == if maxDays < 0 then 0 else if maxDays < |days| then maxDays else |days|
    ensures forall i :: 0 <= i < |w| ==> w[i] == days[i]
  {
    days[..if maxDays < 0 then 0 else if maxDays < |days| then maxDays else |days|]
  }

  /**
   * The scan in `renderWeatherForecast` before rounding: `lo` starts at
   * `Number.MAX_VALUE` and `hi` at its negation, and they become the least
   * `temperatureMin` and the greatest `temperatureMax` of the window.
   */
  method TemperatureEnvelope(window: seq<DayEntry>) returns (lo: real, hi: real)
    ensures lo <= MaxValue && forall i :: 0 <= i < |window| ==> lo <= window[i].temperatureMin
    ensures lo == MaxValue || exists i :: 0 <= i < |window| && lo == window[i].temperatureMin
    ensures hi >= -MaxValue && forall i :: 0 <= i < |window| ==> window[i].temperatureMax <= hi
    ensures hi == -MaxValue || exists i :: 0 <= i < |window| && hi == window[i].temperatureMax
  {
    lo, hi := MaxValue, -MaxValue;
    var i := 0;
    while i < |window|
      invariant 0 <= i <= |window|
      invariant lo <= MaxValue && forall j :: 0 <= j < i ==> lo <= window[j].temperatureMin
      invariant lo == MaxValue || exists j :: 0 <= j < i && lo == window[j].temperatureMin
      invariant hi >= -MaxValue && forall j :: 0 <= j < i ==> window[j].temperatureMax <= hi
      invariant hi == -MaxValue || exists j :: 0 <= j < i && hi == window[j].temperatureMax
    {
      var day := window[i];
      if day.temperatureMin < lo {
        lo := day.temperatureMin;
      }
      if day.temperatureMax > hi {
        hi := day.temperatureMax;
      }
      i := i + 1;
    }
  }

  /** One row of the table: the day and its temperatures after `roundTemp`. */
  datatype ForecastRow = ForecastRow(day: DayEntry, minTemp: real, maxTemp: real)

  /** The table: its rows and the rounded envelope the bars are scaled to. */
  datatype Forecast = Forecast(rows: seq<ForecastRow>, min: real, max: real)

  function Row(day: DayEntry, places: int): ForecastRow {
    ForecastRow(day, RoundTemp(day.temperatureMin, places), RoundTemp(day.temperatureMax, places))
  }

  /**
   * `f` is the table for the first `maxDays` days: a row per day of the
   * window in order; `min` is the least of the window's lows after
   * `Math.round` and `max` the greatest of its highs (the rounded start
   * values `Number.MAX_VALUE` and its negation when nothing is below or
   * above them, as for an empty window).
   */
  predicate IsForecastOf(f: Forecast, days: seq<DayEntry>, maxDays: int, places: int) {
    && |f.rows| == |ForecastWindow(days, maxDays)|
    && (forall i :: 0 <= i < |f.rows| ==> f.rows[i] == Row(days[i], places))
    && (forall i :: 0 <= i < |f.rows| ==> f.min <= MathRound(days[i].temperatureMin))
    && (forall i :: 0 <= i < |f.rows| ==> MathRound(days[i].temperatureMax) <= f.max)
    && (f.min == MathRound(MaxValue)
        || exists i :: 0 <= i < |f.rows| && f.min == MathRound(days[i].temperatureMin))
    && (f.max == MathRound(-MaxValue)
        || exists i :: 0 <= i < |f.rows| && f.max == MathRound(days[i].temperatureMax))
  }

  /**
   * `renderWeatherForecast`: one row per day of the window, and the envelope
   * rounded with `Math.round`.
   */
  method RenderWeatherForecast(days: seq<DayEntry>, maxDays: int, places: int) returns (f: Forecast)
    ensures IsForecastOf(f, days, maxDays, places)
  {
    var window := ForecastWindow(days, maxDays);
    var lo, hi := TemperatureEnvelope(window);
    var rows: seq<ForecastRow> := [];
    var i := 0;
    while i < |window|
      invariant 0 <= i <= |window|
      invariant |rows| == i
      invariant forall j :: 0 <= j < i ==> rows[j] == Row(days[j], places)
    {
      rows := rows + [Row(window[i], places)];
      i := i + 1;
    }
    forall j | 0 <= j < |window|
      ensures MathRound(lo) <= MathRound(days[j].temperatureMin)
      ensures MathRound(days[j].temperatureMax) <= MathRound(hi)
    {
      MathRoundMonotone(lo, window[j].temperatureMin);
      MathRoundMonotone(window[j].temperatureMax, hi);
    }
    f := Forecast(rows, MathRound(lo), MathRound(hi));
  }

  /**
   * With binary places the rows are rounded differently from the bounds:
   * a single day with a low of 9.6 gets a row low of 9.5 under one place,
   * below the table's `Math.round`-ed minimum of 10, so its left spacer is
   * given a negative width.
   */
  lemma RowsCanCrossEnvelope(f: Forecast)
    requires IsForecastOf(f, [DayEntry(0, "rain", 9.6, 12.0)], 7, 1)
    ensures f.rows[0].minTemp == 9.5 && f.min == 10.0
    ensures f.rows[0].minTemp < f.min
  {
    var day := DayEntry(0, "rain", 9.6, 12.0);
    assert ShiftScalar(1) == 2;
    assert MathRound(9.6 * 2.0) == 19.0;
    assert f.rows[0] == Row(day, 1);
    assert MathRound(9.6) == 10.0;
    assert MathRound(MaxValue) > 10.0;
  }

  /**
   * With the default of zero decimal places every row's bar lies inside the
   * table's envelope, so the spacer widths on both sides are not negative.
   */
  lemma RowsWithinEnvelope(f: Forecast, days: seq<DayEntry>, i: nat)
    requires i < |f.rows| && i < |days| && f.rows[i] == Row(days[i], 0)
    requires f.min <= MathRound(days[i].temperatureMin)
    requires MathRound(days[i].temperatureMax) <= f.max
    ensures f.min <= f.rows[i].minTemp && f.rows[i].maxTemp <= f.max
  {
    RoundTempZeroPlaces(days[i].temperatureMin);
    RoundTempZeroPlaces(days[i].temperatureMax);
  }
}
