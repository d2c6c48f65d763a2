/**
 * The simpler pipeline: only the current and hourly temperatures come from
 * the provider; the condition follows from temperature alone, humidity,
 * wind and pressure are random variations around fixed values, and a
 * five-day forecast is built by a loop over 24-hour windows of the hourly
 * temperatures.
 *
 * The browser's part is a parameter: the outcome of the request, the
 * date-fns formatting and the successive values of Math.random().
 */
module WeatherApi {
  import opened Js
  import opened WeatherUtils

  // ---------------------------------------------------------------------------
  // Provider response and outcome of the request

  datatype ApiResponse = ApiResponse(currentTemperature: real, hourlyTime: seq<string>, hourlyTemperature: seq<real>)

  /**
   * What `fetch` and `response.json()` produced. The status is never looked
   * at: a body that does not have the expected shape is the only failure
   * after the transport.
   */
  datatype ApiOutcome = NetworkFailure | Body(data: Option<ApiResponse>)

  /** InvalidTimeValue: date-fns throws on the date of a missing hourly entry. */
  datatype FetchError = NetworkError | BodyError | InvalidTimeValue

  datatype ApiEnv = ApiEnv(
    hourMinute: string -> string,  // format(parseISO(t), 'HH:mm')
    dayMonth: string -> string,    // format(parseISO(t), 'dd/MM')
    weekday: string -> string,     // format(parseISO(t), 'EEEE', { locale: es })
    rand: nat -> Draw)             // the k-th call of Math.random(), counted from 0

  // ---------------------------------------------------------------------------
  // Output model

  datatype TempPoint = TempPoint(time: string, temp: real)
  datatype HumidityPoint = HumidityPoint(time: string, humidity: int)
  datatype WindPoint = WindPoint(time: string, speed: int)
  datatype PressurePoint = PressurePoint(time: string, pressure: int)

  datatype WeatherData = WeatherData(
    temperature: real,
    feelsLike: real,
    condition: Condition,
    humidity: int,
    windSpeed: int,
    visibility: int,
    sunrise: string,
    sunset: string,
    hourlyTemp: seq<TempPoint>,
    hourlyHumidity: seq<HumidityPoint>,
    hourlyWind: seq<WindPoint>,
    hourlyPressure: seq<PressurePoint>)

  datatype ForecastData = ForecastData(
    date: string,
    day: string,
    condition: Condition,
    high: real,
    low: real,
    humidity: int,
    windSpeed: int,
    precipitation: int)

  datatype Report = Report(weather: WeatherData, forecast: seq<ForecastData>)

  const MockHumidityValue: int := 65
  const MockWindSpeedValue: int := 15
  const MockVisibility: int := 10
  const MockSunrise: string := "06:30"
  const MockSunset: string := "20:45"
  const ForecastDays: nat := 5

  // ---------------------------------------------------------------------------
  // Condition from temperature

  function GetCondition(temp: real): (r: Condition)
    ensures r == Soleado <==> temp >= 20.0
    ensures r == Nublado <==> 10.0 <= temp < 20.0
    ensures r == Lluvioso <==> temp < 10.0
  {
    if temp >= 20.0 then Soleado
    else if temp >= 10.0 then Nublado
    else Lluvioso
  }

  /** Order of the three temperature conditions, coldest first. */
  function Warmth(c: Condition): nat
  {
    match c
    case Lluvioso => 0
    case Nublado => 1
    case _ => 2
  }

  /** A warmer temperature never gets a colder condition. */
  lemma GetConditionMonotone(t1: real, t2: real)
    requires t1 <= t2
    ensures Warmth(GetCondition(t1)) <= Warmth(GetCondition(t2))
  {
  }

  // ---------------------------------------------------------------------------
  // Random variations: Math.floor(Math.random() * k - c) around a fixed value

  function MockHumidity(r: Draw): (h: int)
    ensures 60 <= h <= 69
  {
    MockHumidityValue + Floor(r * 10.0 - 5.0)
  }

  function MockWind(r: Draw): (w: int)
    ensures 13 <= w <= 17
  {
    MockWindSpeedValue + Floor(r * 5.0 - 2.0)
  }

  function MockPressure(r: Draw): (p: int)
    ensures 1003 <= p <= 1022
  {
    1013 + Floor(r * 20.0 - 10.0)
  }

  function MockPrecipitation(r: Draw): (p: int)
    ensures 0 <= p <= 29
  {
    Floor(r * 30.0)
  }

  /** Every value of each range is produced by some draw, so the ranges are exact. */
  lemma MockRangesAttained(k: int)
    ensures 60 <= k <= 69 ==> exists r: Draw :: MockHumidity(r) == k
    ensures 13 <= k <= 17 ==> exists r: Draw :: MockWind(r) == k
    ensures 1003 <= k <= 1022 ==> exists r: Draw :: MockPressure(r) == k
    ensures 0 <= k <= 29 ==> exists r: Draw :: MockPrecipitation(r) == k
  {
    if 60 <= k <= 69 {
      var r: Draw := (k - 60) as real / 10.0;
      assert r * 10.0 - 5.0 == (k - 65) as real;
      assert MockHumidity(r) == k;
    }
    if 13 <= k <= 17 {
      var r: Draw := (k - 13) as real / 5.0;
      assert r * 5.0 - 2.0 == (k - 15) as real;
      assert MockWind(r) == k;
    }
    if 1003 <= k <= 1022 {
      var r: Draw := (k - 1003) as real / 20.0;
      assert r * 20.0 - 10.0 == (k - 1013) as real;
      assert MockPressure(r) == k;
    }
    if 0 <= k <= 29 {
      var r: Draw := k as real / 30.0;
      assert r * 30.0 == k as real;
      assert MockPrecipitation(r) == k;
    }
  }

  // ---------------------------------------------------------------------------
  // Hourly series

  /** The first 24 hourly temperatures, unrounded, with their HH:mm labels. */
  function HourlyTemp(env: ApiEnv, data: ApiResponse): (r: seq<TempPoint>)
    requires |data.hourlyTemperature| == |data.hourlyTime|
    ensures |r| == Min(24, |data.hourlyTime|) <= 24
    ensures forall i :: 0 <= i < |r| ==> r[i].temp == data.hourlyTemperature[i]
  {
    var n := Min(24, |data.hourlyTime|);
    var r := seq(n, i requires 0 <= i < n => TempPoint(env.hourMinute(data.hourlyTime[i]), data.hourlyTemperature[i]));
    assert forall i :: 0 <= i < n ==> r[i].temp == data.hourlyTemperature[i];
    r
  }

  /** Draws 0 .. n-1, one per entry of the temperature series. */
  function HourlyHumidity(env: ApiEnv, temps: seq<TempPoint>): (r: seq<HumidityPoint>)
    ensures |r| == |temps|
    ensures forall i :: 0 <= i < |r| ==> r[i].time == temps[i].time && 60 <= r[i].humidity <= 69
  {
    var r := seq(|temps|, i requires 0 <= i < |temps| => HumidityPoint(temps[i].time, MockHumidity(env.rand(i))));
    assert forall i :: 0 <= i < |r| ==> r[i] == HumidityPoint(temps[i].time, MockHumidity(env.rand(i)));
    r
  }

  /** Draws n .. 2n-1. */
  function HourlyWind(env: ApiEnv, temps: seq<TempPoint>): (r: seq<WindPoint>)
    ensures |r| == |temps|
    ensures forall i :: 0 <= i < |r| ==> r[i].time == temps[i].time && 13 <= r[i].speed <= 17
  {
    var r := seq(|temps|, i requires 0 <= i < |temps| => WindPoint(temps[i].time, MockWind(env.rand(|temps| + i))));
    assert forall i :: 0 <= i < |r| ==> r[i] == WindPoint(temps[i].time, MockWind(env.rand(|temps| + i)));
    r
  }

  /** Draws 2n .. 3n-1. */
  function HourlyPressure(env: ApiEnv, temps: seq<TempPoint>): (r: seq<PressurePoint>)
    ensures |r| == |temps|
    ensures forall i :: 0 <= i < |r| ==> r[i].time == temps[i].time && 1003 <= r[i].pressure <= 1022
  {
    var r := seq(|temps|, i requires 0 <= i < |temps| =>
      PressurePoint(temps[i].time, MockPressure(env.rand(2 * |temps| + i))));
    assert forall i :: 0 <= i < |r| ==> r[i] == PressurePoint(temps[i].time, MockPressure(env.rand(2 * |temps| + i)));
    r
  }

  // ---------------------------------------------------------------------------
  // Forecast

  /** Math.max(...xs) on a non-empty list. */
  function SeqMax(xs: seq<real>): real
    requires |xs| > 0
  {
    if |xs| == 1 then xs[0]
    else
      var rest := SeqMax(xs[1..]);
      if xs[0] > rest then xs[0] else rest
  }

  /** Math.min(...xs) on a non-empty list. */
  function SeqMin(xs: seq<real>): real
    requires |xs| > 0
  {
    if |xs| == 1 then xs[0]
    else
      var rest := SeqMin(xs[1..]);
      if xs[0] < rest then xs[0] else rest
  }

  /** SeqMax gives an element of the list that no element exceeds. */
  lemma {:induction false} SeqMaxIsMaximum(xs: seq<real>)
    requires |xs| > 0
    ensures SeqMax(xs) in xs
    ensures forall i :: 0 <= i < |xs| ==> xs[i] <= SeqMax(xs)
  {
    if |xs| > 1 {
      SeqMaxIsMaximum(xs[1..]);
      assert forall i :: 1 <= i < |xs| ==> xs[i] == xs[1..][i - 1];
    }
  }

  /** SeqMin gives an element of the list that exceeds no element. */
  lemma {:induction false} SeqMinIsMinimum(xs: seq<real>)
    requires |xs| > 0
    ensures SeqMin(xs) in xs
    ensures forall i :: 0 <= i < |xs| ==> SeqMin(xs) <= xs[i]
  {
    if |xs| > 1 {
      SeqMinIsMinimum(xs[1..]);
      assert forall i :: 1 <= i < |xs| ==> xs[i] == xs[1..][i - 1];
    }
  }

  /** hourly.temperature_2m.slice(24i, 24i + 24): the slice stops at the end of the array. */
  function DayWindow(data: ApiResponse, i: nat): (w: seq<real>)
    requires 24 * i < |data.hourlyTemperature|
    ensures 1 <= |w| <= 24
  {
    data.hourlyTemperature[24 * i .. Min(24 * i + 24, |data.hourlyTemperature|)]
  }

  /**
   * Forecast day i, after n hourly entries: the extremes of its window, the
   * condition of the high, and draws 3n + 3i .. 3n + 3i + 2.
   */
  function ForecastDay(env: ApiEnv, data: ApiResponse, n: nat, i: nat): (r: ForecastData)
    requires |data.hourlyTemperature| == |data.hourlyTime| && 24 * i < |data.hourlyTime|
    ensures r.high in DayWindow(data, i) && r.low in DayWindow(data, i) && r.low <= r.high
  {
    SeqMaxIsMaximum(DayWindow(data, i));
    SeqMinIsMinimum(DayWindow(data, i));
    var date := data.hourlyTime[24 * i];
    var high := SeqMax(DayWindow(data, i));
    var low := SeqMin(DayWindow(data, i));
    ForecastData(env.dayMonth(date), env.weekday(date), GetCondition(high), high, low,
      MockHumidity(env.rand(3 * n + 3 * i)),
      MockWind(env.rand(3 * n + 3 * i + 1)),
      MockPrecipitation(env.rand(3 * n + 3 * i + 2)))
  }

  /** The five days, when hourly.time reaches index 96; None when format would throw. */
  function ForecastSpec(env: ApiEnv, data: ApiResponse, n: nat): (r: Option<seq<ForecastData>>)
    requires |data.hourlyTemperature| == |data.hourlyTime|
    ensures r.Some? <==> |data.hourlyTime| > 96
    ensures r.Some? ==> |r.value| == 5
  {
    if |data.hourlyTime| <= 24 * (ForecastDays - 1) then None
    else Some(seq(ForecastDays, i requires 0 <= i < ForecastDays => ForecastDay(env, data, n, i)))
  }

  /**
   * The loop of fetchWeatherData: five iterations, each pushing one day. It
   * throws, discarding the days already pushed, as soon as the first hour of
   * a day is missing from hourly.time.
   */
  method BuildForecast(env: ApiEnv, data: ApiResponse, n: nat) returns (r: Result<seq<ForecastData>, FetchError>)
    requires |data.hourlyTemperature| == |data.hourlyTime|
    ensures r.Err? <==> ForecastSpec(env, data, n).None?
    ensures r.Err? ==> r.error == InvalidTimeValue
    ensures r.Ok? ==> r.value == ForecastSpec(env, data, n).value
  {
    var forecast: seq<ForecastData> := [];
    var i := 0;
    while i < ForecastDays
      invariant 0 <= i <= ForecastDays
      invariant |forecast| == i
      invariant forall j :: 0 <= j < i ==> 24 * j < |data.hourlyTime|
      invariant forall j :: 0 <= j < i ==> forecast[j] == ForecastDay(env, data, n, j)
    {
      var dayIndex := i * 24;
      if dayIndex >= |data.hourlyTime| {
        return Err(InvalidTimeValue);
      }
      var date := data.hourlyTime[dayIndex];
      var dailyTemps := data.hourlyTemperature[dayIndex .. Min(dayIndex + 24, |data.hourlyTemperature|)];
      var high := SeqMax(dailyTemps);
      var low := SeqMin(dailyTemps);
      var day := ForecastData(
        env.dayMonth(date),
        env.weekday(date),
        GetCondition(high),
        high,
        low,
        MockHumidity(env.rand(3 * n + 3 * i)),
        MockWind(env.rand(3 * n + 3 * i + 1)),
        MockPrecipitation(env.rand(3 * n + 3 * i + 2)));
      assert day == ForecastDay(env, data, n, i) by {
        assert dailyTemps == DayWindow(data, i);
      }
      ghost var done := forecast;
      forecast := forecast + [day];
      assert forall j :: 0 <= j < i ==> forecast[j] == done[j];
      i := i + 1;
    }
    assert forecast == ForecastSpec(env, data, n).value by {
      assert 24 * (ForecastDays - 1) < |data.hourlyTime|;
    }
    return Ok(forecast);
  }

  /** The report the pipeline builds from a parsed response, when the forecast succeeds. */
  function ReportSpec(env: ApiEnv, data: ApiResponse): (r: Option<Report>)
    requires |data.hourlyTemperature| == |data.hourlyTime|
    ensures r.Some? <==> |data.hourlyTime| > 96
    ensures r.Some? ==> |r.value.forecast| == 5 && r.value.weather.feelsLike == data.currentTemperature
  {
    var hourlyTemp := HourlyTemp(env, data);
    var forecast := ForecastSpec(env, data, |hourlyTemp|);
    if forecast.None? then None
    else
      var temp := data.currentTemperature;
      Some(Report(
        WeatherData(temp, temp, GetCondition(temp), MockHumidityValue, MockWindSpeedValue, MockVisibility,
          MockSunrise, MockSunset, hourlyTemp, HourlyHumidity(env, hourlyTemp), HourlyWind(env, hourlyTemp),
          HourlyPressure(env, hourlyTemp)),
        forecast.value))
  }

  /** fetchWeatherData after the request. */
  method FetchWeatherData(outcome: ApiOutcome, env: ApiEnv) returns (r: Result<Report, FetchError>)
    requires outcome.Body? && outcome.data.Some? ==>
      |outcome.data.value.hourlyTemperature| == |outcome.data.value.hourlyTime|
    ensures outcome.NetworkFailure? ==> r == Err(NetworkError)
    ensures outcome.Body? && outcome.data.None? ==> r == Err(BodyError)
    ensures outcome.Body? && outcome.data.Some? ==>
      (r.Ok? <==> |outcome.data.value.hourlyTime| > 96) &&
      (r.Err? ==> r.error == InvalidTimeValue) &&
      (r.Ok? ==> Some(r.value) == ReportSpec(env, outcome.data.value))
  {
    if outcome.NetworkFailure? {
      return Err(NetworkError);
    }
    if outcome.data.None? {
      return Err(BodyError);
    }
    var data := outcome.data.value;
    var currentTemp := data.currentTemperature;
    var condition := GetCondition(currentTemp);
    var hourlyTemp := HourlyTemp(env, data);
    var hourlyHumidity := HourlyHumidity(env, hourlyTemp);
    var hourlyWind := HourlyWind(env, hourlyTemp);
    var hourlyPressure := HourlyPressure(env, hourlyTemp);
    var forecast := BuildForecast(env, data, |hourlyTemp|);
    if forecast.Err? {
      return Err(forecast.error);
    }
    var weather := WeatherData(currentTemp, currentTemp, condition, MockHumidityValue, MockWindSpeedValue,
      MockVisibility, MockSunrise, MockSunset, hourlyTemp, hourlyHumidity, hourlyWind, hourlyPressure);
    return Ok(Report(weather, forecast.value));
  }

  // ---------------------------------------------------------------------------
  // Properties of the report

  /**
   * Day i of a forecast: high and low are the largest and smallest hourly
   * temperatures of its window, so low <= high; its condition is that of
   * the high; its placeholders stay in [60, 69], [13, 17] and [0, 29].
   */
  predicate DayFacts(env: ApiEnv, data: ApiResponse, d: ForecastData, i: nat)
    requires 24 * i < |data.hourlyTime| == |data.hourlyTemperature|
  {
    var w := DayWindow(data, i);
    d.high in w && d.low in w && d.low <= d.high &&
    (forall j :: 0 <= j < |w| ==> d.low <= w[j] <= d.high) &&
    d.condition == GetCondition(d.high) &&
    d.date == env.dayMonth(data.hourlyTime[24 * i]) && d.day == env.weekday(data.hourlyTime[24 * i]) &&
    60 <= d.humidity <= 69 && 13 <= d.windSpeed <= 17 && 0 <= d.precipitation <= 29
  }

  /** The forecast has exactly five days, in loop order, each with the facts above. */
  lemma ForecastDays5(env: ApiEnv, data: ApiResponse)
    requires |data.hourlyTemperature| == |data.hourlyTime|
    requires ReportSpec(env, data).Some?
    ensures |ReportSpec(env, data).value.forecast| == 5
    ensures |data.hourlyTime| > 96
    ensures forall i :: 0 <= i < 5 ==> DayFacts(env, data, ReportSpec(env, data).value.forecast[i], i)
  {
    var f := ReportSpec(env, data).value.forecast;
    var n := |HourlyTemp(env, data)|;
    forall i | 0 <= i < 5
      ensures DayFacts(env, data, f[i], i)
    {
      var w := DayWindow(data, i);
      assert f[i] == ForecastDay(env, data, n, i);
      SeqMaxIsMaximum(w);
      SeqMinIsMinimum(w);
    }
  }

  /**
   * The four hourly series have min(24, |hourly.time|) entries with the same
   * labels; temperatures are copied unrounded and the random variations stay
   * in [60, 69], [13, 17] and [1003, 1022].
   */
  lemma HourlySeriesShape(env: ApiEnv, data: ApiResponse)
    requires |data.hourlyTemperature| == |data.hourlyTime|
    requires ReportSpec(env, data).Some?
    ensures var w := ReportSpec(env, data).value.weather;
      var n := Min(24, |data.hourlyTime|);
      |w.hourlyTemp| == n && |w.hourlyHumidity| == n && |w.hourlyWind| == n && |w.hourlyPressure| == n &&
      forall i :: 0 <= i < n ==>
        w.hourlyTemp[i] == TempPoint(env.hourMinute(data.hourlyTime[i]), data.hourlyTemperature[i]) &&
        w.hourlyHumidity[i].time == w.hourlyTemp[i].time &&
        w.hourlyWind[i].time == w.hourlyTemp[i].time &&
        w.hourlyPressure[i].time == w.hourlyTemp[i].time &&
        60 <= w.hourlyHumidity[i].humidity <= 69 &&
        13 <= w.hourlyWind[i].speed <= 17 &&
        1003 <= w.hourlyPressure[i].pressure <= 1022
  {
    var temps := HourlyTemp(env, data);
    var w := ReportSpec(env, data).value.weather;
    assert w.hourlyTemp == temps;
    assert w.hourlyHumidity == HourlyHumidity(env, temps);
    assert w.hourlyWind == HourlyWind(env, temps);
    assert w.hourlyPressure == HourlyPressure(env, temps);
    forall i | 0 <= i < |temps|
      ensures w.hourlyHumidity[i] == HumidityPoint(temps[i].time, MockHumidity(env.rand(i)))
      ensures w.hourlyWind[i] == WindPoint(temps[i].time, MockWind(env.rand(|temps| + i)))
      ensures w.hourlyPressure[i] == PressurePoint(temps[i].time, MockPressure(env.rand(2 * |temps| + i)))
    {
    }
  }

  /** The current snapshot: feels-like equals the temperature, the rest are fixed values. */
  lemma CurrentSnapshot(env: ApiEnv, data: ApiResponse)
    requires |data.hourlyTemperature| == |data.hourlyTime|
    requires ReportSpec(env, data).Some?
    ensures var w := ReportSpec(env, data).value.weather;
      w.temperature == data.currentTemperature && w.feelsLike == w.temperature &&
      w.condition == GetCondition(data.currentTemperature) &&
      w.humidity == 65 && w.windSpeed == 15 && w.visibility == 10 &&
      w.sunrise == "06:30" && w.sunset == "20:45"
  {
  }
}
