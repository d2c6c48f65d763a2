# Weather data normalisation, modelled in Dafny

This project models the core of a browser weather dashboard: the code that turns one
provider response into the model the UI reads. The model covers three parts:

- **The Open-Meteo pipeline** (`src/lib/weatherService.ts`, module `WeatherService`). It takes
  one parsed response of parallel arrays (`hourly.*`, `daily.*`) and builds:
  - a current snapshot;
  - four 24-hour series: temperature, humidity, wind and a synthetic pressure;
  - a forecast of up to seven days.
  Relative humidity is derived from the dew point with the Magnus approximation. The weather
  condition comes from a first-match classifier with strict thresholds.
- **The display and derivation helpers** (`src/lib/weatherUtils.ts`, module `WeatherUtils`):
  - `formatTemperature`;
  - the case-insensitive icon selector;
  - the temperature-colour, humidity, wind and UV bands;
  - the condition classifier and the humidity formula. The service's private copies of these
    two (`src/lib/weatherService.ts:165-182`) are identical and are modelled by the same members.
- **The simpler pipeline** (`src/api/WeatherData.ts`, module `WeatherApi`):
  - the condition is computed from temperature alone;
  - humidity, wind and pressure are random variations around fixed values;
  - a five-day forecast is built by a `for` loop over 24-hour windows of the hourly
    temperatures. In the model this loop is a method with loop invariants, proved against a
    specification function.

Module `Js` holds the JavaScript semantics the code relies on:
- `Math.round` as `floor(x + 0.5)`, and `Math.floor`;
- `x || y` on numbers: `undefined` and `0` are both falsy;
- ASCII `toLowerCase`/`toUpperCase`;
- `includes`;
- the decimal text of an integer.

What the browser supplies is a parameter of the model:
- the outcome of `fetch`/`response.json()`, as `HttpOutcome` and `ApiOutcome`;
- the local hour (`getHours()`), as `Hour`;
- `Math.exp` and `Math.sin`, as functions into the positive reals and into [-1, 1];
- the es-ES / date-fns formatting of dates and times, as string functions;
- the successive values of `Math.random()`, as a stream `rand: nat -> Draw` indexed by call
  order. Day `i` of the Open-Meteo forecast uses draws `5i .. 5i+4`. In the simpler pipeline,
  the three hourly series use draws `0 .. 3n-1`, and forecast day `i` uses `3n+3i .. 3n+3i+2`.

Numbers are reals. A result that JavaScript can make NaN is a `JsInt` (`Int(v)` or `NaN`):
- `calculateHumidity(-243.04, -243.04)`: both Magnus denominators are 0, `Math.exp(-Infinity)`
  is 0, and the quotient is 0/0;
- the current humidity and wind speed when the hourly arrays are empty, because
  `x[h] || x[0]` is then `undefined`.

Behaviour of the code worth knowing, each stated by a member of the model:
- The classifier checks precipitation first. A precipitation of 30 is "parcialmente nublado"
  whatever the radiation and the day flag (`WeatherCondition`, whose second ensures gives
  "parcialmente nublado" exactly for 20 < precipitation <= 50).
- The current humidity and wind speed fall back to hourly index 0 when the entry at the
  current hour is missing, and also when it is 0. Precipitation and radiation fall back to the
  constant 0, not to index 0 (`CurrentFallback`, `CurrentConditionInputs`).
- Nothing checks that the hourly and daily arrays have equal lengths. The model requires
  aligned arrays (`Aligned`).
- The humidity is an integer in [0, 100] or NaN, in the two cases above (`CalculateHumidity`,
  `CurrentHumidity`).
- In `src/lib/weatherService.ts`, `Math.random()` is drawn only for the forecast. For the same
  response and the same local hour, the snapshot and the hourly series do not depend on the
  draws (`SnapshotIgnoresDraws`). The local hour does matter: the snapshot reads the hourly
  entries at `new Date().getHours()`. In `src/api/WeatherData.ts` the hourly humidity, wind and
  pressure series are themselves random draws.
- `src/api/WeatherData.ts` never looks at `response.ok`. Its forecast loop throws when
  `hourly.time` has 96 entries or fewer. The call then returns no forecast at all
  (`BuildForecast`).

## Model

| member | source | states |
|---|---|---|
| `Js.Round` | src/lib/weatherUtils.ts:10 | `Math.round(x)` is the integer r with r - 0.5 <= x < r + 0.5 (halves go up) |
| `Js.RoundMonotone` | src/lib/weatherUtils.ts:79 | rounding never reverses the order of two numbers |
| `Js.Clamp` | src/lib/weatherUtils.ts:79 | `Math.min(100, Math.max(0, x))` lies in [0, 100], is x inside that range and the nearer bound outside it |
| `Js.Floor` | src/api/WeatherData.ts:57 | `Math.floor(x)` is the integer r with r <= x < r + 1 |
| `Js.Lower` | src/lib/weatherUtils.ts:14 | lower-casing keeps the length, maps each letter, and leaves no upper-case letter |
| `Js.LowerIdempotent` | src/lib/weatherUtils.ts:14 | lower-casing twice is lower-casing once |
| `Js.Capitalize` | src/lib/weatherService.ts:144 | the day name keeps its length, its first letter is upper-cased and the rest is unchanged |
| `Js.Includes` | src/lib/weatherUtils.ts:16-22 | `s.includes(t)` holds only when t fits in s; it always holds for the empty word and for s itself |
| `Js.NotIncludes` | src/lib/weatherUtils.ts:16 | `includes` is false when some letter of the word never lines up with `s` |
| `Js.NatText` | src/lib/weatherUtils.ts:10 | the decimal text of a natural number is canonical digits: no leading zero, and exactly "0" for 0 |
| `Js.ParseNatText` | src/lib/weatherUtils.ts:10 | reading the decimal text of n back gives n |
| `Js.NatTextUnique` | src/lib/weatherUtils.ts:10 | canonical digits are the decimal text of the number they denote |
| `Js.IntText` | src/lib/weatherUtils.ts:10 | `${n}` is canonical integer text (never "-0", no leading zero), has a minus sign exactly when n < 0, and reads back as n |
| `Js.IntTextUnique` | src/lib/weatherUtils.ts:10 | every canonical integer text is the text of its value, so each integer has exactly one |
| `WeatherUtils.FormatTemperature` | src/lib/weatherUtils.ts:9-11 | the text ends in "°C", and what precedes it is canonical integer text reading back as `Math.round(temp)` |
| `WeatherUtils.FormatTemperatureUnique` | src/lib/weatherUtils.ts:9-11 | any canonical integer text of `Math.round(temp)` followed by "°C" is the result: the text is fully determined |
| `WeatherUtils.FormatTemperatureExamples` | src/lib/weatherUtils.ts:9-11 | -0.4 → "0°C" (`Math.round` gives -0, written "0"), -2.5 → "-2°C", 7 → "7°C", 21.5 → "22°C" |
| `WeatherUtils.WeatherCondition` | src/lib/weatherUtils.ts:63-73 | each category holds exactly on its region: rain iff precipitation > 50, partly cloudy iff 20 < p <= 50, sunny iff p <= 20 by day with radiation > 400, cloudy iff p <= 20 with radiation < 100, clear or clear-night for the rest by day or by night |
| `WeatherUtils.ConditionPrecedence` | src/lib/weatherService.ts:177-181 | precipitation > 50 is rain whatever the radiation; exactly 50 is not rain and exactly 20 not partly cloudy; "soleado" only by day, "despejado nocturno" only by night |
| `WeatherUtils.ConditionExamples` | src/lib/weatherUtils.ts:63-73 | (60, day, 300) rain; (30, day, 450) and (30, day, 50) partly cloudy; (10, night, 250) clear night; (20, day, 500) sunny |
| `WeatherUtils.WeatherIcon` | src/lib/weatherUtils.ts:13-27 | clear words win over all others; rain iff no clear word and a rain word; snow needs a snow word and no rain word; cloud needs a cloud word and no snow word; the sun otherwise |
| `WeatherUtils.IconIgnoresCase` | src/lib/weatherUtils.ts:14 | texts equal up to letter case get the same icon, and lower-casing first changes nothing |
| `WeatherUtils.IconOfCondition` | src/lib/weatherUtils.ts:13-27 | "lluvioso" → CloudRain; "parcialmente nublado", "nublado" → Cloud; "soleado", "despejado", "despejado nocturno" → Sun |
| `WeatherUtils.RainTextIcon` | src/lib/weatherUtils.ts:18-19 | "lluvioso" gets CloudRain |
| `WeatherUtils.PartlyCloudyKeyWords` | src/lib/weatherUtils.ts:16-23 | "parcialmente nublado" contains no clear, rain or snow word, and does contain "nublado" |
| `WeatherUtils.PartlyCloudyTextIcon` | src/lib/weatherUtils.ts:22-23 | "parcialmente nublado" gets Cloud: no clear, rain or snow word occurs in it |
| `WeatherUtils.CloudyTextIcon` | src/lib/weatherUtils.ts:22-23 | "nublado" gets Cloud |
| `WeatherUtils.ClearTextIcons` | src/lib/weatherUtils.ts:16-17 | the three clear-sky texts get Sun |
| `WeatherUtils.TemperatureColor` | src/lib/weatherUtils.ts:29-36 | each colour holds exactly on its band, lower bounds inclusive: red >= 30, orange [25,30), yellow [20,25), green [15,20), blue [10,15), cyan < 10 |
| `WeatherUtils.TemperatureColorMonotone` | src/lib/weatherUtils.ts:29-36 | a warmer temperature never gets a colder band |
| `WeatherUtils.HumidityLevelOf` | src/lib/weatherUtils.ts:38-44 | each level holds exactly on its band, lower bounds inclusive (80, 60, 40, 20) |
| `WeatherUtils.WindLevelOf` | src/lib/weatherUtils.ts:46-52 | each level holds exactly on its band, lower bounds inclusive (50, 30, 15, 5) |
| `WeatherUtils.BandBoundaries` | src/lib/weatherUtils.ts:38-52 | 80 → "Muy Alta", 79 → "Alta", 5 → "Suave", 4.9 → "Calma" |
| `WeatherUtils.UVLevel` | src/lib/weatherUtils.ts:54-60 | each band holds exactly on its range, lower bounds inclusive (11, 8, 6, 3) |
| `WeatherUtils.UVLevelMonotone` | src/lib/weatherUtils.ts:54-60 | a higher UV index never gets a lower band |
| `WeatherUtils.MagnusTerm` | src/lib/weatherUtils.ts:77-78 | the exponential term is non-negative, and 0 exactly at the pole -243.04 |
| `WeatherUtils.CalculateHumidity` | src/lib/weatherUtils.ts:76-80 | in real arithmetic the result is an integer in [0, 100], and NaN exactly when both inputs are -243.04 |
| `WeatherUtils.HumidityAtDewPoint` | src/lib/weatherService.ts:166-170 | in real arithmetic, at temp == dewPoint (off the pole) numerator and denominator agree and the humidity is exactly 100 |
| `WeatherUtils.HumidityNonIncreasing` | src/lib/weatherUtils.ts:76-80 | with the dew point fixed, a higher temperature on the same side of -243.04 never gives a higher humidity (for an increasing exp) |
| `WeatherUtils.HumiditySaturates` | src/lib/weatherUtils.ts:76-80 | a dew point at or above the temperature, on the same side of -243.04, gives exactly 100 |
| `WeatherUtils.MagnusExponentMonotone` | src/lib/weatherUtils.ts:77-78 | on either side of -243.04 the Magnus exponent grows with its argument |
| `WeatherService.CurrentHumidity` | src/lib/weatherService.ts:74-78 | the current humidity is an integer in [0, 100] or NaN, and NaN when there is no dew point at all |
| `WeatherService.CurrentCondition` | src/lib/weatherService.ts:80-83 | "soleado" only when `is_day` is 1 and "despejado nocturno" only when it is not; a missing precipitation entry never gives rain or partly cloudy |
| `WeatherService.CurrentWindSpeed` | src/lib/weatherService.ts:115 | the current wind speed is NaN exactly when there are no hourly wind speeds |
| `WeatherService.FirstClockLabel` | src/lib/weatherService.ts:119-126 | with no daily entry the label is "Invalid Date" |
| `WeatherService.HourlyTemp` | src/lib/weatherService.ts:86-89 | min(24, \|hourly.time\|) entries, each within half a degree of the provider's temperature |
| `WeatherService.HourlyHumidity` | src/lib/weatherService.ts:91-97 | min(24, \|hourly.time\|) entries, each an integer in [0, 100] or NaN |
| `WeatherService.HourlyWind` | src/lib/weatherService.ts:99-102 | min(24, \|hourly.time\|) entries, each within 0.5 of the provider's wind speed |
| `WeatherService.HourlyPressure` | src/lib/weatherService.ts:104-108 | min(24, \|hourly.time\|) entries, each in [1010, 1016] |
| `WeatherService.ForecastEntry` | src/lib/weatherService.ts:134-155 | a forecast day is never "nublado" or "despejado nocturno", and is "despejado" exactly when the precipitation draw is at most 0.2 and the radiation draw 0; placeholders in [50, 80), [5, 20), [0, 100) |
| `WeatherService.Forecast` | src/lib/weatherService.ts:134-156 | min(7, \|daily.time\|) days, the first dated "Hoy" |
| `WeatherService.Transform` | src/lib/weatherService.ts:68-158 | visibility 10, pressure 1013, UV index 6; temperature and feels-like rounded from `current`; four series of min(24, \|hourly.time\|) entries; min(7, \|daily.time\|) forecast days |
| `WeatherService.FetchWeatherData` | src/lib/weatherService.ts:54-163 | transport failure, non-ok status and unparsable body each give an error and no model; otherwise the model is the transformation of the parsed body, with visibility 10, pressure 1013, UV index 6, and temperature and feels-like rounded from `current` |
| `WeatherService.SnapshotIgnoresDraws` | src/lib/weatherService.ts:68-131 | the snapshot and the hourly series do not depend on `Math.random()`: any two draw streams give the same ones |
| `WeatherService.HourlySeriesAligned` | src/lib/weatherService.ts:86-108 | the four series have min(24, \|hourly.time\|) entries and share the label of hourly.time[i] at each index |
| `WeatherService.HourlyHumidityPerIndex` | src/lib/weatherService.ts:91-97 | hourly humidity i is recomputed from temperature i and dew point i, in [0, 100], NaN only at the pole |
| `WeatherService.HourlyValues` | src/lib/weatherService.ts:86-108 | hourly temperature and wind are the provider's values rounded; the synthetic pressure stays in [1010, 1016] |
| `WeatherService.CurrentFallback` | src/lib/weatherService.ts:74-115 | current humidity (with `current.temperature_2m`) and wind use the current hour, falling back to index 0 when that entry is absent or 0, NaN with no hourly data |
| `WeatherService.CurrentConditionInputs` | src/lib/weatherService.ts:80-83 | the current condition reads precipitation and radiation at the current hour (0 when missing) and the day flag `is_day === 1` |
| `WeatherService.SunTimes` | src/lib/weatherService.ts:119-126 | sunrise and sunset are the first daily entries formatted, "Invalid Date" when there is none |
| `WeatherService.ForecastShape` | src/lib/weatherService.ts:134-151 | min(7, \|daily.time\|) days; day 0 is "Hoy"; high/low are the daily max/min rounded; the day name is capitalised, with its length and tail kept |
| `WeatherService.ForecastConditions` | src/lib/weatherService.ts:145-149 | a forecast condition is rain, partly cloudy, sunny or clear, never "nublado" or "despejado nocturno", and clear exactly when the radiation draw is 0 and the precipitation draw at most 0.2 |
| `WeatherService.ForecastPlaceholders` | src/lib/weatherService.ts:152-154 | forecast humidity, wind and precipitation stay in [50, 80), [5, 20) and [0, 100) |
| `WeatherApi.GetCondition` | src/api/WeatherData.ts:114-118 | "soleado" iff temp >= 20, "nublado" iff 10 <= temp < 20, "lluvioso" iff temp < 10 |
| `WeatherApi.GetConditionMonotone` | src/api/WeatherData.ts:114-118 | a warmer temperature never gets a colder condition |
| `WeatherApi.MockHumidity` | src/api/WeatherData.ts:55-58 | 65 + floor(r·10 - 5) lies in [60, 69] for every draw |
| `WeatherApi.MockWind` | src/api/WeatherData.ts:60-63 | 15 + floor(r·5 - 2) lies in [13, 17] |
| `WeatherApi.MockPressure` | src/api/WeatherData.ts:65-68 | 1013 + floor(r·20 - 10) lies in [1003, 1022] |
| `WeatherApi.MockPrecipitation` | src/api/WeatherData.ts:87 | floor(r·30) lies in [0, 29] |
| `WeatherApi.MockRangesAttained` | src/api/WeatherData.ts:55-87 | every value of each of those ranges is produced by some draw, so the ranges are exact |
| `WeatherApi.HourlyTemp` | src/api/WeatherData.ts:49-52 | min(24, \|hourly.time\|) entries carrying the provider's temperatures unrounded |
| `WeatherApi.HourlyHumidity` | src/api/WeatherData.ts:55-58 | one entry per hourly temperature, with its label, the humidity in [60, 69] |
| `WeatherApi.HourlyWind` | src/api/WeatherData.ts:60-63 | one entry per hourly temperature, with its label, the speed in [13, 17] |
| `WeatherApi.HourlyPressure` | src/api/WeatherData.ts:65-68 | one entry per hourly temperature, with its label, the pressure in [1003, 1022] |
| `WeatherApi.SeqMax` | src/api/WeatherData.ts:76 | `Math.max(...xs)` on a non-empty list; its contract is `SeqMaxIsMaximum` |
| `WeatherApi.SeqMin` | src/api/WeatherData.ts:77 | `Math.min(...xs)` on a non-empty list; its contract is `SeqMinIsMinimum` |
| `WeatherApi.ForecastDay` | src/api/WeatherData.ts:73-88 | the high and the low of a day are entries of its 24-hour window, and low <= high |
| `WeatherApi.ForecastSpec` | src/api/WeatherData.ts:71-89 | the forecast exists exactly when hourly.time has more than 96 entries, and then has five days |
| `WeatherApi.ReportSpec` | src/api/WeatherData.ts:30-106 | the report exists exactly when hourly.time has more than 96 entries; it has five forecast days and feels-like equal to the temperature |
| `WeatherApi.DayWindow` | src/api/WeatherData.ts:75 | the 24-hour slice of a day whose first hour exists has between 1 and 24 entries |
| `WeatherApi.SeqMaxIsMaximum` | src/api/WeatherData.ts:76 | `Math.max(...xs)` is an element of xs that no element exceeds |
| `WeatherApi.SeqMinIsMinimum` | src/api/WeatherData.ts:77 | `Math.min(...xs)` is an element of xs that exceeds no element |
| `WeatherApi.BuildForecast` | src/api/WeatherData.ts:71-89 | the loop fails exactly when hourly.time has 96 entries or fewer; otherwise it yields the five specified days in loop order |
| `WeatherApi.ForecastDays5` | src/api/WeatherData.ts:71-89 | exactly five days; each high/low is the max/min of its window, so low <= high; condition == getCondition(high); date and weekday formatted from hourly.time[24i]; placeholders in [60,69], [13,17], [0,29] |
| `WeatherApi.FetchWeatherData` | src/api/WeatherData.ts:30-111 | transport failure and unparsable body are errors; a parsed body succeeds exactly when hourly.time has more than 96 entries, and then gives the specified report |
| `WeatherApi.HourlySeriesShape` | src/api/WeatherData.ts:49-68 | four series of min(24, \|hourly.time\|) entries with the same labels; temperatures copied unrounded; variations in [60,69], [13,17], [1003,1022] |
| `WeatherApi.CurrentSnapshot` | src/api/WeatherData.ts:91-104 | feels-like equals the temperature; condition from it; humidity 65, wind 15, visibility 10, sunrise "06:30", sunset "20:45" |

## Left out

- Network I/O: `fetch` and `response.json()` are not modelled. Their outcome is an input:
  `HttpOutcome` / `ApiOutcome`.
- `console.error` logging on the error path.
- `Math.exp` and `Math.sin` are opaque parameters. The model only knows their ranges
  (positive, and [-1, 1]). Floating-point rounding is not modelled.
- WeatherUtils.CalculateHumidity: stated in real arithmetic. IEEE overflow and underflow of
  `Math.exp` near the pole are not modelled:
  - Just below -243.04 (down to about -249.2), the exponent exceeds about 709.8 and `Math.exp` is
    +Infinity.
  - Just above it (up to about -237.4), the exponent is below about -745.1 and `Math.exp` is 0.
  - Two such terms give NaN in JavaScript, for instance `calculateHumidity(-243, -243)`. The
    model gives 100 there (`HumidityAtDewPoint`).
- Date parsing and locale formatting (`toLocaleTimeString`, `toLocaleDateString`, date-fns
  `format`/`parseISO`) are opaque string functions. A time string that does not parse, on
  which date-fns throws, is not modelled; only the missing entry at index 24·i is.
- `Math.random()` is a stream of draws in [0, 1), not a random generator.
- `null` entries in the provider's arrays are not modelled: every entry is a number.
- Arrays of unequal length in one response are excluded by a requires (`Aligned`, and the
  equal-length requires of `WeatherApi`). The code indexes them without checking.
- Case mapping covers ASCII letters only. `toLowerCase`/`toUpperCase` on other Unicode
  letters, and results longer than one letter, are not modelled.
- `${n}` is modelled as plain decimal text. JavaScript's exponent notation for
  |n| >= 10^21 is not modelled.
- The UI is not modelled: `src/pages/Index.tsx` (component state, loading and error
  rendering, the search form), `src/components/WeatherMap.tsx` (mock city table, CSS
  positioning) and `src/components/ForecastCard.tsx` (rendering only).
- WeatherUtils.HumidityNonIncreasing: proved for an increasing `exp` and two temperatures on
  the same side of -243.04. Across the pole the Magnus exponent falls from +Infinity to
  -Infinity, so a warmer temperature there can give a higher humidity.
