/**
 * Logic that the two versions of the forecast widget share word for word:
 * the delay chosen by `scheduleUpdate`, the geolocation trigger, the order in
 * which `getDom` picks a view, JavaScript's `Math.round`, and the splitting of
 * request URLs into their parts.
 */
module WidgetCommon {
  import opened Wrappers

  /** The retry delay `updateWeather` uses while a geolocation lookup is pending. */
  const GeolocationRetryDelay: int := 1000

  /**
   * The delay `scheduleUpdate(delay)` hands to `setTimeout`: the requested
   * delay when it is given and not negative, the configured update interval
   * otherwise (`None` is an omitted argument).
   */
  function NextLoad(delay: Option<int>, updateInterval: int): (r: int)
    ensures delay.Some? && delay.value >= 0 ==> r == delay.value
    ensures delay.None? || delay.value < 0 ==> r == updateInterval
    ensures updateInterval >= 0 ==> r >= 0
  {
    if delay.Some? && delay.value >= 0 then delay.value else updateInterval
  }

  /** A coordinate as the widget keeps it: the text it renders into the URL, or `null`. */
  type Coordinate = Option<string>

  /**
   * A lookup is needed only when neither coordinate is configured
   * (`latitude == null && longitude == null`).
   */
  predicate ShouldLookupGeolocation(latitude: Coordinate, longitude: Coordinate) {
    latitude.None? && longitude.None?
  }

  /** String concatenation renders a missing coordinate as "null". */
  function CoordinateText(c: Coordinate): (r: string)
    ensures c.Some? ==> r == c.value
    ensures c.None? ==> r == "null"
  {
    c.GetOr("null")
  }

  /** Which of its four views `getDom` produces. */
  datatype Status = ConfigurationError | GeolocationError | Loading | Ready

  /**
   * `getDom`'s precedence: an empty API key wins over a failed geolocation
   * lookup, which wins over "not loaded yet"; content is shown only when none
   * of the three applies.
   */
  function DisplayStatus(apiKeyEmpty: bool, geoLocationLookupFailed: bool, loaded: bool): (s: Status)
    ensures s == ConfigurationError <==> apiKeyEmpty
    ensures s == GeolocationError <==> !apiKeyEmpty && geoLocationLookupFailed
    ensures s == Loading <==> !apiKeyEmpty && !geoLocationLookupFailed && !loaded
    ensures s == Ready <==> !apiKeyEmpty && !geoLocationLookupFailed && loaded
  {
    if apiKeyEmpty then ConfigurationError
    else if geoLocationLookupFailed then GeolocationError
    else if !loaded then Loading
    else Ready
  }

  /**
   * `Math.round` over the reals: the integer nearest to `x`, halves going
   * toward +infinity.
   */
  function MathRound(x: real): (r: real)
    ensures r == r.Floor as real
    ensures x - 0.5 < r <= x + 0.5
  {
    (x + 0.5).Floor as real
  }

  /** Rounding never reorders two values. */
  lemma MathRoundMonotone(x: real, y: real)
    requires x <= y
    ensures MathRound(x) <= MathRound(y)
  {
    assert (x + 0.5).Floor <= (y + 0.5).Floor;
  }

  /** An integer is its own rounding. */
  lemma MathRoundOfInteger(k: int)
    ensures MathRound(k as real) == k as real
  {
    assert (k as real + 0.5).Floor == k;
  }

  /**
   * Splits `s` at the first occurrence of `sep`: the text before it and the
   * text after it, or `None` when `sep` does not occur.
   */
  function SplitFirst(s: string, sep: char): (r: Option<(string, string)>)
    ensures r.Some? ==> s == r.value.0 + [sep] + r.value.1 && sep !in r.value.0
    ensures r.None? ==> sep !in s
  {
    if |s| == 0 then None
    else if s[0] == sep then Some(([], s[1..]))
    else
      match SplitFirst(s[1..], sep)
      case None => None
      case Some(p) => Some(([s[0]] + p.0, p.1))
  }

  /** Splitting a joined pair gives it back, provided the first part has no separator. */
  lemma {:induction false} SplitFirstJoin(a: string, sep: char, b: string)
    requires sep !in a
    ensures SplitFirst(a + [sep] + b, sep) == Some((a, b))
  {
    if a == [] {
      assert a + [sep] + b == [sep] + b;
    } else {
      assert (a + [sep] + b)[1..] == a[1..] + [sep] + b;
      SplitFirstJoin(a[1..], sep, b);
      assert [a[0]] + a[1..] == a;
    }
  }

  /** `s` without the prefix `p`, or `None` when `s` does not start with `p`. */
  function StripPrefix(s: string, p: string): (r: Option<string>)
    ensures r.Some? <==> p <= s
    ensures r.Some? ==> s == p + r.value
  {
    if p <= s then Some(s[|p|..]) else None
  }

  lemma StripPrefixJoin(p: string, s: string)
    ensures StripPrefix(p + s, p) == Some(s)
  {
    assert p <= p + s;
    assert (p + s)[|p|..] == s;
  }
}
