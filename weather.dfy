/**
 * `getWeatherCondition` in script.js: the label shown next to the
 * temperature, from a WMO weather interpretation code (WMO code table 4677,
 * as the Open-Meteo forecast API reports it) and the wind speed in km/h.
 */
module Weather {
  import opened Values

  datatype Condition = Clear | Sunny | Cloudy | Foggy | Drizzly | Rainy | Snowy | Stormy | Windy

  /** The word the page prints. */
  function Label(c: Condition): string {
    match c
    case Clear => "Clear"
    case Sunny => "Sunny"
    case Cloudy => "Cloudy"
    case Foggy => "Foggy"
    case Drizzly => "Drizzly"
    case Rainy => "Rainy"
    case Snowy => "Snowy"
    case Stormy => "Stormy"
    case Windy => "Windy"
  }

  /** Distinct conditions print distinct words. */
  lemma LabelInjective(c1: Condition, c2: Condition)
    requires Label(c1) == Label(c2)
    ensures c1 == c2
  {
  }

  /** Wind speeds strictly above this many km/h count as windy. */
  const WindyAbove: real := 30.0

  /**
   * The condition a listed code maps to, None for a code the table does not
   * list; a reference reading of the WMO groups, independent of the order of
   * the source's tests.
   */
  function CodeGroup(code: int): Option<Condition> {
    if code == 0 then Some(Clear)
    else if code in {1, 2} then Some(Sunny)
    else if code == 3 then Some(Cloudy)
    else if code in {45, 48} then Some(Foggy)
    else if 51 <= code <= 55 then Some(Drizzly)
    else if 61 <= code <= 65 || 80 <= code <= 82 then Some(Rainy)
    else if 71 <= code <= 77 || 85 <= code <= 86 then Some(Snowy)
    else if 95 <= code <= 99 then Some(Stormy)
    else None
  }

  /**
   * The chain of tests in the source, in its order: listed codes first, then
   * the wind, then Sunny. A listed code wins over any wind; Windy needs an
   * unlisted code and a speed strictly above 30; every other case is Sunny.
   */
  function WeatherCondition(code: int, windSpeed: real): (c: Condition)
    ensures CodeGroup(code).Some? ==> c == CodeGroup(code).value
    ensures c == Windy <==> CodeGroup(code).None? && windSpeed > WindyAbove
    ensures CodeGroup(code).None? && windSpeed <= WindyAbove ==> c == Sunny
  {
    if code == 0 then Clear
    else if code == 1 || code == 2 then Sunny
    else if code == 3 then Cloudy
    else if code == 45 || code == 48 then Foggy
    else if code >= 51 && code <= 55 then Drizzly
    else if code >= 61 && code <= 65 then Rainy
    else if code >= 71 && code <= 77 then Snowy
    else if code >= 80 && code <= 82 then Rainy
    else if code >= 85 && code <= 86 then Snowy
    else if code >= 95 && code <= 99 then Stormy
    else if windSpeed > WindyAbove then Windy
    else Sunny
  }

  /** The wind only matters for codes the table does not list. */
  lemma ListedCodesIgnoreWind(code: int, w1: real, w2: real)
    requires CodeGroup(code).Some?
    ensures WeatherCondition(code, w1) == WeatherCondition(code, w2)
  {
  }

  /** Exactly 30 km/h is not windy; anything above is, for an unlisted code. */
  lemma WindThreshold(code: int, windSpeed: real)
    requires CodeGroup(code).None?
    ensures WeatherCondition(code, WindyAbove) == Sunny
    ensures windSpeed > WindyAbove ==> WeatherCondition(code, windSpeed) == Windy
  {
  }
}
