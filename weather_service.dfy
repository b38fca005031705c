/**
 * The WMO weather-code labels and the cache-freshness test of
 * services/weatherService.ts. The network fetch and the offline fallback
 * are not modelled; the cached record is given already parsed.
 */
module WeatherService {
  import opened Wrappers

  /** Thirty minutes, in milliseconds. */
  const CACHE_DURATION := 30 * 60 * 1000

  /** getWeatherLabel: the first range the code falls in. */
  function WeatherLabel(code: int): (text: string)
    ensures text == "Clear Sky" <==> code == 0
    ensures text == "Partly Cloudy" <==> 1 <= code <= 3
    ensures text == "Foggy" <==> 45 <= code <= 48
    ensures text == "Drizzle" <==> 51 <= code <= 55
    ensures text == "Rain" <==> 61 <= code <= 67
    ensures text == "Snow" <==> 71 <= code <= 77
    ensures text == "Thunderstorm" <==> code >= 95
    ensures text == "Unknown" <==>
      code < 0 || 4 <= code <= 44 || 49 <= code <= 50 || 56 <= code <= 60
      || 68 <= code <= 70 || 78 <= code <= 94
  {
    if code == 0 then "Clear Sky"
    else if 1 <= code <= 3 then "Partly Cloudy"
    else if 45 <= code <= 48 then "Foggy"
    else if 51 <= code <= 55 then "Drizzle"
    else if 61 <= code <= 67 then "Rain"
    else if 71 <= code <= 77 then "Snow"
    else if code >= 95 then "Thunderstorm"
    else "Unknown"
  }

  /** Shower codes (80-82) and freezing drizzle (56-57) have no label of their own. */
  lemma ShowersAreUnknown(code: int)
    requires 80 <= code <= 82 || 56 <= code <= 57
    ensures WeatherLabel(code) == "Unknown"
  {
  }

  /** The record written to the weather cache slot. */
  datatype WeatherData = WeatherData(
    temperature: real,
    condition: string,
    humidity: real,
    windSpeed: real,
    timestamp: int)

  /** The cached record is used only while it is younger than thirty minutes. */
  predicate IsFresh(now: int, timestamp: int) {
    now - timestamp < CACHE_DURATION
  }

  /**
   * The cache check: the cached record when it parsed and is fresh; None
   * means the weather is fetched again.
   */
  function FromCache(cached: Option<WeatherData>, now: int): (r: Option<WeatherData>)
    ensures r.Some? <==> cached.Some? && now - cached.value.timestamp < 1800000
    ensures r.Some? ==> r == cached
  {
    if cached.Some? && IsFresh(now, cached.value.timestamp) then cached else None
  }

  /** An entry exactly thirty minutes old is already stale; one a millisecond younger is used. */
  lemma FreshnessBoundary(cached: WeatherData)
    ensures FromCache(Some(cached), cached.timestamp + 1800000) == None
    ensures FromCache(Some(cached), cached.timestamp + 1799999) == Some(cached)
  {
  }
}
