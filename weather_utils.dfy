/**
 * The display helpers and derivation functions of the weather dashboard:
 * temperature text, the icon chosen for a condition text, the threshold
 * bands for temperature colour, humidity, wind and UV index, the weather
 * condition classifier and relative humidity from the dew point.
 */
module WeatherUtils {
  import opened Js

  // ---------------------------------------------------------------------------
  // Temperature text

  /** `${Math.round(temp)}°C`: the integer text of the rounded temperature, then "°C". */
  function FormatTemperature(temp: real): (r: string)
    ensures |r| >= 3 && r[|r| - 2..] == "°C"
    ensures IsCanonicalIntText(r[..|r| - 2]) && ParseInt(r[..|r| - 2]) == Round(temp)
  {
    var n := IntText(Round(temp));
    assert (n + "°C")[..|n|] == n;
    n + "°C"
  }

  /**
   * The temperature text is the only canonical integer text of the rounded
   * temperature followed by "°C": no "-0", no leading zero.
   */
  lemma FormatTemperatureUnique(temp: real, s: string)
    requires IsCanonicalIntText(s) && ParseInt(s) == Round(temp)
    ensures FormatTemperature(temp) == s + "°C"
  {
    IntTextUnique(s);
  }

  /** Math.round(-0.4) is -0, written "0"; halves round up, also below zero. */
  lemma FormatTemperatureExamples()
    ensures FormatTemperature(-0.4) == "0°C"
    ensures FormatTemperature(-2.5) == "-2°C"
    ensures FormatTemperature(7.0) == "7°C"
    ensures FormatTemperature(21.5) == "22°C"
  {
  }

  // ---------------------------------------------------------------------------
  // Weather condition

  /** The condition categories; Text() is the string the dashboard shows. */
  datatype Condition = Lluvioso | ParcialmenteNublado | Soleado | Nublado | Despejado | DespejadoNocturno
  {
    function Text(): string
    {
      match this
      case Lluvioso => "lluvioso"
      case ParcialmenteNublado => "parcialmente nublado"
      case Soleado => "soleado"
      case Nublado => "nublado"
      case Despejado => "despejado"
      case DespejadoNocturno => "despejado nocturno"
    }
  }

  /**
   * Classifies a precipitation probability (percent), a day flag and a solar
   * radiation (W/m²). The checks are made in order and the first that holds
   * wins; every threshold is strict. The ensures clauses give the region of
   * the input space each category covers.
   */
  function WeatherCondition(precipitation: real, isDay: bool, radiation: real): (r: Condition)
    ensures r == Lluvioso <==> precipitation > 50.0
    ensures r == ParcialmenteNublado <==> 20.0 < precipitation <= 50.0
    ensures r == Soleado <==> precipitation <= 20.0 && isDay && radiation > 400.0
    ensures r == Nublado <==> precipitation <= 20.0 && radiation < 100.0
    ensures r == Despejado <==> precipitation <= 20.0 && isDay && 100.0 <= radiation <= 400.0
    ensures r == DespejadoNocturno <==> precipitation <= 20.0 && !isDay && radiation >= 100.0
  {
    if precipitation > 50.0 then Lluvioso
    else if precipitation > 20.0 then ParcialmenteNublado
    else if radiation > 400.0 && isDay then Soleado
    else if radiation < 100.0 then Nublado
    else if isDay then Despejado
    else DespejadoNocturno
  }

  /**
   * Precipitation decides before radiation: above 50 it is always rain, and
   * the thresholds 50 and 20 themselves fall through to the next check.
   * "soleado" needs daylight and "despejado nocturno" needs night.
   */
  lemma ConditionPrecedence(precipitation: real, isDay: bool, radiation: real)
    ensures precipitation > 50.0 ==> WeatherCondition(precipitation, isDay, radiation) == Lluvioso
    ensures WeatherCondition(50.0, isDay, radiation) == ParcialmenteNublado
    ensures WeatherCondition(20.0, isDay, radiation) != ParcialmenteNublado
    ensures WeatherCondition(precipitation, isDay, radiation) == Soleado ==> isDay
    ensures WeatherCondition(precipitation, isDay, radiation) == DespejadoNocturno ==> !isDay
  {
  }

  /** Sample classifications, including two where ordered checks differ from independent ones. */
  lemma ConditionExamples()
    ensures WeatherCondition(60.0, true, 300.0) == Lluvioso
    ensures WeatherCondition(30.0, true, 450.0) == ParcialmenteNublado
    ensures WeatherCondition(30.0, true, 50.0) == ParcialmenteNublado
    ensures WeatherCondition(10.0, false, 250.0) == DespejadoNocturno
    ensures WeatherCondition(20.0, true, 500.0) == Soleado
  {
  }

  // ---------------------------------------------------------------------------
  // Icon selection

  datatype Icon = Sun | Cloud | CloudRain | CloudSnow

  predicate MentionsClear(s: string) { Includes(s, "soleado") || Includes(s, "despejado") }
  predicate MentionsRain(s: string) { Includes(s, "lluv") || Includes(s, "tormenta") }
  predicate MentionsSnow(s: string) { Includes(s, "nieve") || Includes(s, "nevada") }
  predicate MentionsCloud(s: string) { Includes(s, "nublado") || Includes(s, "nube") }

  /**
   * The icon for a condition text: the text is lower-cased, then searched
   * for key words; clear-sky words are looked for first, then rain, snow and
   * cloud words, and a text with none of them gets the sun.
   */
  function WeatherIcon(condition: string): (r: Icon)
    ensures MentionsClear(Lower(condition)) ==> r == Sun
    ensures r == CloudRain <==> !MentionsClear(Lower(condition)) && MentionsRain(Lower(condition))
    ensures r == CloudSnow ==> MentionsSnow(Lower(condition)) && !MentionsRain(Lower(condition))
    ensures r == Cloud ==> MentionsCloud(Lower(condition)) && !MentionsSnow(Lower(condition))
    ensures r == Sun && !MentionsClear(Lower(condition)) ==>
              !MentionsRain(Lower(condition)) && !MentionsSnow(Lower(condition)) && !MentionsCloud(Lower(condition))
  {
    var lower := Lower(condition);
    if MentionsClear(lower) then Sun
    else if MentionsRain(lower) then CloudRain
    else if MentionsSnow(lower) then CloudSnow
    else if MentionsCloud(lower) then Cloud
    else Sun
  }

  /** Texts that differ only in the case of their letters get the same icon. */
  lemma {:induction false} IconIgnoresCase(s: string, t: string)
    requires |s| == |t|
    requires forall i :: 0 <= i < |s| ==> LowerChar(s[i]) == LowerChar(t[i])
    ensures WeatherIcon(s) == WeatherIcon(t)
    ensures WeatherIcon(Lower(s)) == WeatherIcon(s)
  {
    assert Lower(s) == Lower(t);
    LowerIdempotent(s);
  }

  lemma RainTextIcon()
    ensures WeatherIcon("lluvioso") == CloudRain
  {
    var s := "lluvioso";
    LowerOfLower(s);
    NotIncludes(s, "soleado", 0);
    NotIncludes(s, "despejado", 0);
    IncludesWitness(s, "lluv", 0);
  }

  /** "parcialmente nublado" holds none of the clear, rain or snow words. */
  lemma PartlyCloudyKeyWords()
    ensures !MentionsClear("parcialmente nublado")
    ensures !MentionsRain("parcialmente nublado")
    ensures !MentionsSnow("parcialmente nublado")
    ensures MentionsCloud("parcialmente nublado")
  {
    var s := "parcialmente nublado";
    NotIncludes(s, "soleado", 0);
    NotIncludes(s, "despejado", 0);
    NotIncludes(s, "lluv", 3);
    NotIncludes(s, "tormenta", 1);
    NotIncludes(s, "nieve", 3);
    NotIncludes(s, "nevada", 2);
    IncludesWitness(s, "nublado", 13);
  }

  lemma PartlyCloudyTextIcon()
    ensures WeatherIcon("parcialmente nublado") == Cloud
  {
    LowerOfLower("parcialmente nublado");
    PartlyCloudyKeyWords();
  }

  lemma CloudyTextIcon()
    ensures WeatherIcon("nublado") == Cloud
  {
    var s := "nublado";
    LowerOfLower(s);
    NotIncludes(s, "soleado", 0);
    NotIncludes(s, "despejado", 0);
    NotIncludes(s, "lluv", 2);
    NotIncludes(s, "tormenta", 0);
    NotIncludes(s, "nieve", 1);
    NotIncludes(s, "nevada", 1);
    IncludesWitness(s, "nublado", 0);
  }

  lemma ClearTextIcons()
    ensures WeatherIcon("soleado") == Sun
    ensures WeatherIcon("despejado") == Sun
    ensures WeatherIcon("despejado nocturno") == Sun
  {
    LowerOfLower("soleado");
    IncludesWitness("soleado", "soleado", 0);
    LowerOfLower("despejado");
    IncludesWitness("despejado", "despejado", 0);
    LowerOfLower("despejado nocturno");
    IncludesWitness("despejado nocturno", "despejado", 0);
  }

  /** The icon of every text the classifier produces. */
  lemma IconOfCondition(c: Condition)
    ensures c == Lluvioso ==> WeatherIcon(c.Text()) == CloudRain
    ensures c == ParcialmenteNublado || c == Nublado ==> WeatherIcon(c.Text()) == Cloud
    ensures c == Soleado || c == Despejado || c == DespejadoNocturno ==> WeatherIcon(c.Text()) == Sun
  {
    match c
    case Lluvioso => RainTextIcon();
    case ParcialmenteNublado => PartlyCloudyTextIcon();
    case Nublado => CloudyTextIcon();
    case _ => ClearTextIcons();
  }

  // ---------------------------------------------------------------------------
  // Threshold bands (each lower bound inclusive)

  datatype TempColor = Cyan | Blue | Green | Yellow | Orange | Red
  {
    function ClassName(): string
    {
      match this
      case Red => "text-red-500"
      case Orange => "text-orange-500"
      case Yellow => "text-yellow-500"
      case Green => "text-green-500"
      case Blue => "text-blue-500"
      case Cyan => "text-cyan-500"
    }

    /** Position of the band on the temperature scale, coldest first. */
    function Rank(): nat
    {
      match this
      case Cyan => 0
      case Blue => 1
      case Green => 2
      case Yellow => 3
      case Orange => 4
      case Red => 5
    }
  }

  function TemperatureColor(temp: real): (r: TempColor)
    ensures r == Red <==> temp >= 30.0
    ensures r == Orange <==> 25.0 <= temp < 30.0
    ensures r == Yellow <==> 20.0 <= temp < 25.0
    ensures r == Green <==> 15.0 <= temp < 20.0
    ensures r == Blue <==> 10.0 <= temp < 15.0
    ensures r == Cyan <==> temp < 10.0
  {
    if temp >= 30.0 then Red
    else if temp >= 25.0 then Orange
    else if temp >= 20.0 then Yellow
    else if temp >= 15.0 then Green
    else if temp >= 10.0 then Blue
    else Cyan
  }

  /** A warmer temperature never gets a colder colour. */
  lemma TemperatureColorMonotone(t1: real, t2: real)
    requires t1 <= t2
    ensures TemperatureColor(t1).Rank() <= TemperatureColor(t2).Rank()
  {
  }

  datatype HumidityLevel = MuyBaja | Baja | Moderada | Alta | MuyAlta
  {
    function Label(): string
    {
      match this
      case MuyAlta => "Muy Alta"
      case Alta => "Alta"
      case Moderada => "Moderada"
      case Baja => "Baja"
      case MuyBaja => "Muy Baja"
    }
  }

  function HumidityLevelOf(humidity: real): (r: HumidityLevel)
    ensures r == MuyAlta <==> humidity >= 80.0
    ensures r == Alta <==> 60.0 <= humidity < 80.0
    ensures r == Moderada <==> 40.0 <= humidity < 60.0
    ensures r == Baja <==> 20.0 <= humidity < 40.0
    ensures r == MuyBaja <==> humidity < 20.0
  {
    if humidity >= 80.0 then MuyAlta
    else if humidity >= 60.0 then Alta
    else if humidity >= 40.0 then Moderada
    else if humidity >= 20.0 then Baja
    else MuyBaja
  }

  datatype WindLevel = Calma | Suave | Moderado | Fuerte | MuyFuerte
  {
    function Label(): string
    {
      match this
      case MuyFuerte => "Muy Fuerte"
      case Fuerte => "Fuerte"
      case Moderado => "Moderado"
      case Suave => "Suave"
      case Calma => "Calma"
    }
  }

  function WindLevelOf(windSpeed: real): (r: WindLevel)
    ensures r == MuyFuerte <==> windSpeed >= 50.0
    ensures r == Fuerte <==> 30.0 <= windSpeed < 50.0
    ensures r == Moderado <==> 15.0 <= windSpeed < 30.0
    ensures r == Suave <==> 5.0 <= windSpeed < 15.0
    ensures r == Calma <==> windSpeed < 5.0
  {
    if windSpeed >= 50.0 then MuyFuerte
    else if windSpeed >= 30.0 then Fuerte
    else if windSpeed >= 15.0 then Moderado
    else if windSpeed >= 5.0 then Suave
    else Calma
  }

  /** The lower bound of each band belongs to that band. */
  lemma BandBoundaries()
    ensures HumidityLevelOf(80.0) == MuyAlta && HumidityLevelOf(79.0) == Alta
    ensures WindLevelOf(5.0) == Suave && WindLevelOf(4.9) == Calma
    ensures TemperatureColor(30.0) == Red && UVLevel(11.0) == Extremo
  {
  }

  /** The UV band, carrying its label and its colour class. */
  datatype UVBand = Bajo | UVModerado | Alto | MuyAlto | Extremo
  {
    function Level(): string
    {
      match this
      case Extremo => "Extremo"
      case MuyAlto => "Muy Alto"
      case Alto => "Alto"
      case UVModerado => "Moderado"
      case Bajo => "Bajo"
    }

    function Color(): string
    {
      match this
      case Extremo => "text-purple-600"
      case MuyAlto => "text-red-600"
      case Alto => "text-orange-600"
      case UVModerado => "text-yellow-600"
      case Bajo => "text-green-600"
    }

    function Rank(): nat
    {
      match this
      case Bajo => 0
      case UVModerado => 1
      case Alto => 2
      case MuyAlto => 3
      case Extremo => 4
    }
  }

  function UVLevel(uvIndex: real): (r: UVBand)
    ensures r == Extremo <==> uvIndex >= 11.0
    ensures r == MuyAlto <==> 8.0 <= uvIndex < 11.0
    ensures r == Alto <==> 6.0 <= uvIndex < 8.0
    ensures r == UVModerado <==> 3.0 <= uvIndex < 6.0
    ensures r == Bajo <==> uvIndex < 3.0
  {
    if uvIndex >= 11.0 then Extremo
    else if uvIndex >= 8.0 then MuyAlto
    else if uvIndex >= 6.0 then Alto
    else if uvIndex >= 3.0 then UVModerado
    else Bajo
  }

  /** A higher UV index never gets a lower band. */
  lemma UVLevelMonotone(u1: real, u2: real)
    requires u1 <= u2
    ensures UVLevel(u1).Rank() <= UVLevel(u2).Rank()
  {
  }

  // ---------------------------------------------------------------------------
  // Relative humidity from the dew point (Magnus approximation)

  const MagnusA: real := 17.625
  const MagnusB: real := 243.04

  /**
   * Math.exp(17.625·x / (243.04 + x)), with `exp` standing for Math.exp. At
   * x = -243.04 the quotient is -Infinity in JavaScript and its exponential 0.
   */
  function MagnusTerm(exp: real -> PosReal, x: real): (r: real)
    ensures r >= 0.0
    ensures r == 0.0 <==> x == -MagnusB
  {
    if MagnusB + x == 0.0 then 0.0 else exp(MagnusA * x / (MagnusB + x))
  }

  /**
   * Relative humidity in percent: 100·e(dewPoint)/e(temp), rounded, then
   * clamped to [0, 100]. When both inputs are -243.04 the quotient is 0/0 and
   * the result NaN; when only temp is, it is +Infinity, clamped to 100.
   */
  function CalculateHumidity(exp: real -> PosReal, temp: real, dewPoint: real): (r: JsInt)
    ensures r.NaN? <==> temp == -MagnusB && dewPoint == -MagnusB
    ensures r.Int? ==> 0 <= r.v <= 100
  {
    var numerator := MagnusTerm(exp, dewPoint);
    var denominator := MagnusTerm(exp, temp);
    if denominator == 0.0 then
      (if numerator == 0.0 then NaN else Int(100))
    else
      Int(Clamp(Round(100.0 * numerator / denominator)))
  }

  /** At the dew point the quotient is exactly 1: the air is saturated. */
  lemma HumidityAtDewPoint(exp: real -> PosReal, temp: real)
    requires temp != -MagnusB
    ensures CalculateHumidity(exp, temp, temp) == Int(100)
  {
    var e := MagnusTerm(exp, temp);
    assert 100.0 * e / e == 100.0;
  }

  /** Dividing a non-negative number by a larger positive divisor gives no more. */
  lemma DivAntitone(a: real, x: real, y: real)
    requires a >= 0.0 && x <= y && (0.0 < x || y < 0.0)
    ensures a / y <= a / x
  {
  }

  /**
   * On either side of -243.04 the Magnus exponent grows with the
   * temperature; across the pole it jumps from +Infinity to -Infinity.
   */
  lemma MagnusExponentMonotone(t1: real, t2: real)
    requires t1 <= t2 && (-MagnusB < t1 || t2 < -MagnusB)
    ensures MagnusA * t1 / (MagnusB + t1) <= MagnusA * t2 / (MagnusB + t2)
  {
    var d1, d2 := MagnusB + t1, MagnusB + t2;
    assert t1 / d1 == 1.0 - MagnusB / d1;
    assert t2 / d2 == 1.0 - MagnusB / d2;
    DivAntitone(MagnusB, d1, d2);
    assert MagnusA * t1 / d1 == MagnusA * (t1 / d1);
    assert MagnusA * t2 / d2 == MagnusA * (t2 / d2);
  }

  /**
   * With the dew point fixed, a warmer temperature never gives a higher
   * humidity, as long as both temperatures lie on the same side of -243.04.
   */
  lemma HumidityNonIncreasing(exp: real -> PosReal, dewPoint: real, t1: real, t2: real)
    requires forall x, y :: x <= y ==> exp(x) <= exp(y)
    requires t1 <= t2 && (-MagnusB < t1 || t2 < -MagnusB)
    ensures CalculateHumidity(exp, t1, dewPoint).Int? && CalculateHumidity(exp, t2, dewPoint).Int?
    ensures CalculateHumidity(exp, t2, dewPoint).v <= CalculateHumidity(exp, t1, dewPoint).v
  {
    MagnusExponentMonotone(t1, t2);
    var n := MagnusTerm(exp, dewPoint);
    var e1, e2 := MagnusTerm(exp, t1), MagnusTerm(exp, t2);
    assert 0.0 < e1 <= e2;
    DivAntitone(100.0 * n, e1, e2);
    RoundMonotone(100.0 * n / e2, 100.0 * n / e1);
  }

  /**
   * A dew point at or above the temperature, on the same side of -243.04,
   * saturates the air: 100 percent.
   */
  lemma HumiditySaturates(exp: real -> PosReal, temp: real, dewPoint: real)
    requires forall x, y :: x <= y ==> exp(x) <= exp(y)
    requires temp <= dewPoint && (-MagnusB < temp || dewPoint < -MagnusB)
    ensures CalculateHumidity(exp, temp, dewPoint) == Int(100)
  {
    MagnusExponentMonotone(temp, dewPoint);
    var n, e := MagnusTerm(exp, dewPoint), MagnusTerm(exp, temp);
    assert 0.0 < e <= n;
    assert 100.0 * n / e >= 100.0 by {
      assert 100.0 * n / e * e == 100.0 * n;
    }
  }
}
