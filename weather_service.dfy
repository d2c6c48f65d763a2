/**
 * The Open-Meteo pipeline: one provider response, already parsed, is turned
 * into a current-conditions snapshot, four 24-hour series and a forecast of
 * up to seven days. Relative humidity is derived from the dew point and the
 * condition from precipitation probability, the day flag and solar radiation.
 *
 * What the browser supplies is a parameter: the outcome of the HTTP request,
 * the local hour, Math.exp, Math.sin, the es-ES date and time formatting and
 * the successive values of Math.random().
 */
module WeatherService {
  import opened Js
  import opened WeatherUtils

  // ---------------------------------------------------------------------------
  // Provider response (parallel arrays)

  datatype Current = Current(temperature: real, apparentTemperature: real, isDay: real)

  datatype Hourly = Hourly(
    time: seq<string>,
    temperature: seq<real>,
    dewPoint: seq<real>,
    windSpeed: seq<real>,
    precipitationProbability: seq<real>,
    rain: seq<real>,
    shortwaveRadiation: seq<real>)

  datatype Daily = Daily(
    time: seq<string>,
    temperatureMax: seq<real>,
    temperatureMin: seq<real>,
    sunrise: seq<string>,
    sunset: seq<string>)

  datatype OpenMeteoResponse = OpenMeteoResponse(current: Current, hourly: Hourly, daily: Daily)

  /** Every hourly array is as long as hourly.time, every daily array as long as daily.time. */
  predicate Aligned(data: OpenMeteoResponse)
  {
    var h, d := data.hourly, data.daily;
    |h.temperature| == |h.time| && |h.dewPoint| == |h.time| && |h.windSpeed| == |h.time| &&
    |h.precipitationProbability| == |h.time| && |h.rain| == |h.time| &&
    |h.shortwaveRadiation| == |h.time| &&
    |d.temperatureMax| == |d.time| && |d.temperatureMin| == |d.time| &&
    |d.sunrise| == |d.time| && |d.sunset| == |d.time|
  }

  /** What `fetch` produced: a transport failure, or a status flag and a body that did or did not parse. */
  datatype HttpOutcome = NetworkFailure | Response(ok: bool, body: Option<OpenMeteoResponse>)

  datatype FetchError = NetworkError | StatusError | BodyError

  // ---------------------------------------------------------------------------
  // Output model

  datatype TempPoint = TempPoint(time: string, temp: int)
  datatype HumidityPoint = HumidityPoint(time: string, humidity: JsInt)
  datatype WindPoint = WindPoint(time: string, speed: int)
  datatype PressurePoint = PressurePoint(time: string, pressure: real)

  datatype WeatherData = WeatherData(
    temperature: int,
    feelsLike: int,
    condition: Condition,
    humidity: JsInt,
    windSpeed: JsInt,
    visibility: int,
    pressure: int,
    uvIndex: int,
    sunrise: string,
    sunset: string,
    hourlyTemp: seq<TempPoint>,
    hourlyHumidity: seq<HumidityPoint>,
    hourlyWind: seq<WindPoint>,
    hourlyPressure: seq<PressurePoint>)

  datatype ForecastData = ForecastData(
    date: string,
    day: string,
    condition: Condition,
    high: int,
    low: int,
    humidity: real,
    windSpeed: real,
    precipitation: real)

  datatype Report = Report(weather: WeatherData, forecast: seq<ForecastData>)

  // ---------------------------------------------------------------------------
  // The browser's part

  /** The local hour of the clock, as Date.prototype.getHours gives it. */
  type Hour = h: nat | h < 24

  datatype Env = Env(
    exp: real -> PosReal,           // Math.exp
    sin: real -> UnitReal,          // Math.sin
    clockLabel: string -> string,   // new Date(t).toLocaleTimeString('es-ES', hour and minute)
    weekdayName: string -> string,  // new Date(d).toLocaleDateString('es-ES', long weekday)
    shortDate: string -> string,    // new Date(d).toLocaleDateString('es-ES', day and short month)
    rand: nat -> Draw)              // the k-th call of Math.random(), counted from 0

  /** What toLocaleTimeString gives for `new Date(undefined)`. */
  const InvalidDate: string := "Invalid Date"

  const Visibility: int := 10
  const Pressure: int := 1013
  const UVIndex: int := 6

  // ---------------------------------------------------------------------------
  // Current conditions

  /**
   * Humidity from the current temperature and the dew point at the current
   * hour, or at index 0 when that entry is missing or 0; NaN when there is
   * no dew point at all.
   */
  function CurrentHumidity(env: Env, data: OpenMeteoResponse, hour: Hour): (r: JsInt)
    ensures r.Int? ==> 0 <= r.v <= 100
    ensures |data.hourly.dewPoint| == 0 ==> r == NaN
  {
    match Or(At(data.hourly.dewPoint, hour), At(data.hourly.dewPoint, 0))
    case None => NaN
    case Some(dewPoint) => CalculateHumidity(env.exp, data.current.temperature, dewPoint)
  }

  /** Precipitation probability and radiation at the current hour, 0 when missing. */
  function CurrentCondition(data: OpenMeteoResponse, hour: Hour): (r: Condition)
    ensures r == Soleado ==> data.current.isDay == 1.0
    ensures r == DespejadoNocturno ==> data.current.isDay != 1.0
    ensures hour >= |data.hourly.precipitationProbability| ==> r != Lluvioso && r != ParcialmenteNublado
  {
    var precipitation := Or(At(data.hourly.precipitationProbability, hour), Some(0.0)).value;
    var radiation := Or(At(data.hourly.shortwaveRadiation, hour), Some(0.0)).value;
    WeatherCondition(precipitation, data.current.isDay == 1.0, radiation)
  }

  function CurrentWindSpeed(data: OpenMeteoResponse, hour: Hour): (r: JsInt)
    ensures r.NaN? <==> |data.hourly.windSpeed| == 0
  {
    match Or(At(data.hourly.windSpeed, hour), At(data.hourly.windSpeed, 0))
    case None => NaN
    case Some(speed) => Int(Round(speed))
  }

  /** The formatted time of the first entry of a daily array. */
  function FirstClockLabel(env: Env, times: seq<string>): (r: string)
    ensures |times| == 0 ==> r == InvalidDate
  {
    if |times| > 0 then env.clockLabel(times[0]) else InvalidDate
  }

  // ---------------------------------------------------------------------------
  // Hourly series: the first 24 entries of hourly.time, mapped

  function SeriesLength(h: Hourly): nat
  {
    Min(24, |h.time|)
  }

  function HourlyTemp(env: Env, h: Hourly): (r: seq<TempPoint>)
    requires |h.temperature| == |h.time|
    ensures |r| == SeriesLength(h) <= 24
    ensures forall i :: 0 <= i < |r| ==> r[i].temp as real - 0.5 <= h.temperature[i] < r[i].temp as real + 0.5
  {
    var r := seq(SeriesLength(h), i requires 0 <= i < SeriesLength(h) =>
      TempPoint(env.clockLabel(h.time[i]), Round(h.temperature[i])));
    assert forall i :: 0 <= i < |r| ==> r[i].temp == Round(h.temperature[i]);
    r
  }

  function HourlyHumidity(env: Env, h: Hourly): (r: seq<HumidityPoint>)
    requires |h.temperature| == |h.time| && |h.dewPoint| == |h.time|
    ensures |r| == SeriesLength(h) <= 24
    ensures forall i :: 0 <= i < |r| && r[i].humidity.Int? ==> 0 <= r[i].humidity.v <= 100
  {
    var r := seq(SeriesLength(h), i requires 0 <= i < SeriesLength(h) =>
      HumidityPoint(env.clockLabel(h.time[i]), CalculateHumidity(env.exp, h.temperature[i], h.dewPoint[i])));
    assert forall i :: 0 <= i < |r| ==> r[i].humidity == CalculateHumidity(env.exp, h.temperature[i], h.dewPoint[i]);
    r
  }

  function HourlyWind(env: Env, h: Hourly): (r: seq<WindPoint>)
    requires |h.windSpeed| == |h.time|
    ensures |r| == SeriesLength(h) <= 24
    ensures forall i :: 0 <= i < |r| ==> r[i].speed as real - 0.5 <= h.windSpeed[i] < r[i].speed as real + 0.5
  {
    var r := seq(SeriesLength(h), i requires 0 <= i < SeriesLength(h) =>
      WindPoint(env.clockLabel(h.time[i]), Round(h.windSpeed[i])));
    assert forall i :: 0 <= i < |r| ==> r[i].speed == Round(h.windSpeed[i]);
    r
  }

  /** A placeholder, not a measurement: 1013 + 3·sin(index / 4). */
  function HourlyPressure(env: Env, h: Hourly): (r: seq<PressurePoint>)
    ensures |r| == SeriesLength(h) <= 24
    ensures forall i :: 0 <= i < |r| ==> 1010.0 <= r[i].pressure <= 1016.0
  {
    var r := seq(SeriesLength(h), i requires 0 <= i < SeriesLength(h) =>
      PressurePoint(env.clockLabel(h.time[i]), 1013.0 + env.sin(i as real / 4.0) * 3.0));
    assert forall i :: 0 <= i < |r| ==> r[i].pressure == 1013.0 + env.sin(i as real / 4.0) * 3.0;
    r
  }

  // ---------------------------------------------------------------------------
  // Forecast: the first 7 entries of daily.time, mapped

  /**
   * Day i draws five values of Math.random(), in this order: precipitation
   * and radiation for the condition, then humidity, wind and precipitation.
   */
  function ForecastEntry(env: Env, d: Daily, i: nat): (r: ForecastData)
    requires i < |d.time| && |d.temperatureMax| == |d.time| && |d.temperatureMin| == |d.time|
    ensures r.condition != Nublado && r.condition != DespejadoNocturno
    ensures r.condition == Despejado <==> env.rand(5 * i) <= 0.2 && env.rand(5 * i + 1) == 0.0
    ensures 50.0 <= r.humidity < 80.0 && 5.0 <= r.windSpeed < 20.0 && 0.0 <= r.precipitation < 100.0
  {
    var date := d.time[i];
    ForecastData(
      if i == 0 then "Hoy" else env.shortDate(date),
      Capitalize(env.weekdayName(date)),
      WeatherCondition(env.rand(5 * i) * 100.0, true, 400.0 + env.rand(5 * i + 1) * 200.0),
      Round(d.temperatureMax[i]),
      Round(d.temperatureMin[i]),
      50.0 + env.rand(5 * i + 2) * 30.0,
      5.0 + env.rand(5 * i + 3) * 15.0,
      env.rand(5 * i + 4) * 100.0)
  }

  function Forecast(env: Env, d: Daily): (r: seq<ForecastData>)
    requires |d.temperatureMax| == |d.time| && |d.temperatureMin| == |d.time|
    ensures |r| == Min(7, |d.time|) <= 7
    ensures |r| > 0 ==> r[0].date == "Hoy"
  {
    seq(Min(7, |d.time|), i requires 0 <= i < Min(7, |d.time|) => ForecastEntry(env, d, i))
  }

  // ---------------------------------------------------------------------------
  // The whole transformation

  function Transform(env: Env, data: OpenMeteoResponse, hour: Hour): (r: Report)
    requires Aligned(data)
    ensures r.weather.visibility == 10 && r.weather.pressure == 1013 && r.weather.uvIndex == 6
    ensures r.weather.temperature == Round(data.current.temperature)
    ensures r.weather.feelsLike == Round(data.current.apparentTemperature)
    ensures |r.weather.hourlyTemp| == |r.weather.hourlyHumidity| == |r.weather.hourlyWind|
            == |r.weather.hourlyPressure| == Min(24, |data.hourly.time|)
    ensures |r.forecast| == Min(7, |data.daily.time|)
  {
    var h := data.hourly;
    var weather := WeatherData(
      Round(data.current.temperature),
      Round(data.current.apparentTemperature),
      CurrentCondition(data, hour),
      CurrentHumidity(env, data, hour),
      CurrentWindSpeed(data, hour),
      Visibility, Pressure, UVIndex,
      FirstClockLabel(env, data.daily.sunrise),
      FirstClockLabel(env, data.daily.sunset),
      HourlyTemp(env, h), HourlyHumidity(env, h), HourlyWind(env, h), HourlyPressure(env, h));
    Report(weather, Forecast(env, data.daily))
  }

  /**
   * fetchWeatherData after the request: a transport failure, a non-ok status
   * or a body that does not parse is an error and yields no model at all;
   * otherwise the whole model is built.
   */
  function FetchWeatherData(outcome: HttpOutcome, hour: Hour, env: Env): (r: Result<Report, FetchError>)
    requires outcome.Response? && outcome.body.Some? ==> Aligned(outcome.body.value)
    ensures outcome.NetworkFailure? ==> r == Err(NetworkError)
    ensures outcome.Response? && !outcome.ok ==> r == Err(StatusError)
    ensures outcome.Response? && outcome.ok && outcome.body.None? ==> r == Err(BodyError)
    ensures r.Ok? <==> outcome.Response? && outcome.ok && outcome.body.Some?
    ensures r.Ok? ==> r.value.weather.visibility == 10 && r.value.weather.pressure == 1013
                      && r.value.weather.uvIndex == 6
    ensures r.Ok? ==> r.value.weather.temperature == Round(outcome.body.value.current.temperature)
                      && r.value.weather.feelsLike == Round(outcome.body.value.current.apparentTemperature)
    ensures r.Ok? ==> r.value == Transform(env, outcome.body.value, hour)
  {
    match outcome
    case NetworkFailure => Err(NetworkError)
    case Response(ok, body) =>
      if !ok then Err(StatusError)
      else if body.None? then Err(BodyError)
      else Ok(Transform(env, body.value, hour))
  }

  // ---------------------------------------------------------------------------
  // Properties of the transformation

  /**
   * The four hourly series have min(24, |hourly.time|) entries each and carry
   * the same time label, that of hourly.time[i], at each index i.
   */
  lemma HourlySeriesAligned(env: Env, data: OpenMeteoResponse, hour: Hour)
    requires Aligned(data)
    ensures var w := Transform(env, data, hour).weather;
      var n := Min(24, |data.hourly.time|);
      |w.hourlyTemp| == n && |w.hourlyHumidity| == n && |w.hourlyWind| == n && |w.hourlyPressure| == n &&
      forall i :: 0 <= i < n ==>
        w.hourlyTemp[i].time == env.clockLabel(data.hourly.time[i]) &&
        w.hourlyHumidity[i].time == w.hourlyTemp[i].time &&
        w.hourlyWind[i].time == w.hourlyTemp[i].time &&
        w.hourlyPressure[i].time == w.hourlyTemp[i].time
  {
  }

  /**
   * Each hourly humidity is recomputed from that hour's temperature and dew
   * point; it is an integer in [0, 100], NaN only when both are -243.04.
   */
  lemma HourlyHumidityPerIndex(env: Env, data: OpenMeteoResponse, hour: Hour, i: nat)
    requires Aligned(data) && i < Min(24, |data.hourly.time|)
    ensures var p := Transform(env, data, hour).weather.hourlyHumidity[i];
      p.humidity == CalculateHumidity(env.exp, data.hourly.temperature[i], data.hourly.dewPoint[i]) &&
      (p.humidity.Int? ==> 0 <= p.humidity.v <= 100) &&
      (p.humidity.NaN? <==> data.hourly.temperature[i] == -MagnusB && data.hourly.dewPoint[i] == -MagnusB)
  {
  }

  /** The hourly temperatures and wind speeds are the provider's values rounded; the placeholder pressure stays in [1010, 1016]. */
  lemma HourlyValues(env: Env, data: OpenMeteoResponse, hour: Hour, i: nat)
    requires Aligned(data) && i < Min(24, |data.hourly.time|)
    ensures var w := Transform(env, data, hour).weather;
      w.hourlyTemp[i].temp == Round(data.hourly.temperature[i]) &&
      w.hourlyWind[i].speed == Round(data.hourly.windSpeed[i]) &&
      1010.0 <= w.hourlyPressure[i].pressure <= 1016.0
  {
  }

  /**
   * The current humidity pairs the current temperature with the dew point at
   * the current hour, falling back to index 0 when that entry is absent or 0;
   * the wind speed falls back the same way. With no hourly data both are NaN.
   */
  lemma CurrentFallback(env: Env, data: OpenMeteoResponse, hour: Hour)
    requires Aligned(data)
    ensures var w := Transform(env, data, hour).weather;
      var h := data.hourly;
      var t := data.current.temperature;
      (hour < |h.time| && h.dewPoint[hour] != 0.0 ==> w.humidity == CalculateHumidity(env.exp, t, h.dewPoint[hour])) &&
      ((hour >= |h.time| || h.dewPoint[hour] == 0.0) && |h.time| > 0 ==>
         w.humidity == CalculateHumidity(env.exp, t, h.dewPoint[0])) &&
      (hour < |h.time| && h.windSpeed[hour] != 0.0 ==> w.windSpeed == Int(Round(h.windSpeed[hour]))) &&
      ((hour >= |h.time| || h.windSpeed[hour] == 0.0) && |h.time| > 0 ==>
         w.windSpeed == Int(Round(h.windSpeed[0]))) &&
      (|h.time| == 0 ==> w.humidity == NaN && w.windSpeed == NaN)
  {
  }

  /**
   * The current condition reads precipitation and radiation at the current
   * hour, with 0 for a missing entry, and the day flag is_day == 1.
   */
  lemma CurrentConditionInputs(env: Env, data: OpenMeteoResponse, hour: Hour)
    requires Aligned(data)
    ensures var h := data.hourly;
      var p := if hour < |h.time| then h.precipitationProbability[hour] else 0.0;
      var rad := if hour < |h.time| then h.shortwaveRadiation[hour] else 0.0;
      Transform(env, data, hour).weather.condition == WeatherCondition(p, data.current.isDay == 1.0, rad)
  {
  }

  /** Sunrise and sunset are the formatted first daily entries, "Invalid Date" when there is none. */
  lemma SunTimes(env: Env, data: OpenMeteoResponse, hour: Hour)
    requires Aligned(data)
    ensures var w := Transform(env, data, hour).weather;
      (|data.daily.time| > 0 ==> w.sunrise == env.clockLabel(data.daily.sunrise[0])
                                 && w.sunset == env.clockLabel(data.daily.sunset[0])) &&
      (|data.daily.time| == 0 ==> w.sunrise == InvalidDate && w.sunset == InvalidDate)
  {
  }

  /**
   * The forecast has min(7, |daily.time|) days; the first is labelled "Hoy";
   * high and low are the provider's daily extremes rounded; the day name is
   * the weekday with its first letter upper-cased and the rest unchanged.
   */
  lemma ForecastShape(env: Env, data: OpenMeteoResponse, hour: Hour)
    requires Aligned(data)
    ensures var f := Transform(env, data, hour).forecast;
      var d := data.daily;
      |f| == Min(7, |d.time|) &&
      (|f| > 0 ==> f[0].date == "Hoy") &&
      forall i :: 0 <= i < |f| ==>
        (i > 0 ==> f[i].date == env.shortDate(d.time[i])) &&
        f[i].high == Round(d.temperatureMax[i]) && f[i].low == Round(d.temperatureMin[i]) &&
        var name := env.weekdayName(d.time[i]);
        |f[i].day| == |name| &&
        (|name| > 0 ==> f[i].day[0] == UpperChar(name[0]) && f[i].day[1..] == name[1..])
  {
  }

  /**
   * A forecast day is always classified by day and with radiation of at
   * least 400, so its condition is rain, partly cloudy, sunny or clear, never
   * "nublado" or "despejado nocturno"; it is clear only when the radiation
   * draw is exactly 0 and the precipitation draw at most 0.2.
   */
  lemma ForecastConditions(env: Env, data: OpenMeteoResponse, hour: Hour, i: nat)
    requires Aligned(data) && i < Min(7, |data.daily.time|)
    ensures var c := Transform(env, data, hour).forecast[i].condition;
      (c == Lluvioso || c == ParcialmenteNublado || c == Soleado || c == Despejado) &&
      c != Nublado && c != DespejadoNocturno &&
      (c == Despejado <==> env.rand(5 * i) <= 0.2 && env.rand(5 * i + 1) == 0.0)
  {
  }

  /**
   * Math.random() is drawn only for the forecast: with the same response, the
   * same hour and the same exp, sin and clock formatting, the snapshot and the
   * four hourly series are the same whatever the draws.
   */
  lemma SnapshotIgnoresDraws(e1: Env, e2: Env, data: OpenMeteoResponse, hour: Hour)
    requires Aligned(data) && e1.exp == e2.exp && e1.sin == e2.sin && e1.clockLabel == e2.clockLabel
    ensures Transform(e1, data, hour).weather == Transform(e2, data, hour).weather
  {
  }

  /** The placeholder humidity, wind and precipitation of a forecast day stay in [50, 80), [5, 20) and [0, 100). */
  lemma ForecastPlaceholders(env: Env, data: OpenMeteoResponse, hour: Hour, i: nat)
    requires Aligned(data) && i < Min(7, |data.daily.time|)
    ensures var f := Transform(env, data, hour).forecast[i];
      50.0 <= f.humidity < 80.0 && 5.0 <= f.windSpeed < 20.0 && 0.0 <= f.precipitation < 100.0
  {
  }
}
