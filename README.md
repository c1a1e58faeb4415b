# Solar dashboard data pipeline, modelled in Dafny

This project models the data layer of a small solar-production dashboard
(`assets/js/api.js`). That layer:

- resolves the runtime configuration: compiled-in defaults with the host
  page's override object spread over them;
- builds the service URLs;
- normalises the two payloads the service returns. The overview payload
  holds the current power and the last day's energy. The energy series holds
  time-stamped readings with a unit;
- turns the series into the dashboard's power curve (average kW per quarter
  hour) and daily energy bars (kWh per day);
- assembles the headline figures: current power, today's energy, peak power
  and the CO2 avoided.

The JavaScript values the code receives are modelled as a datatype:
`JsValues.JsValue` has undefined, null, booleans, numbers (exact reals),
strings, arrays and objects. Optional chaining, `??`, object spread,
`Number()` and `String()` are written out over it. `toFixed(n)` followed by
`Number(...)` is modelled as rounding half away from zero to `n` decimals
(`Rounding.Round`), on exact reals.

Modules:

| module | concern |
|---|---|
| `Wrappers` | `Option` |
| `Text` | `indexOf`, `replace` with one character, `toUpperCase`, `trim`, `padStart`, `slice(0, n)` |
| `Decimal` | decimal text of integers; `Number()` of a string |
| `JsValues` | the value datatype; `?.`, `??`, `Number()`, `toNumber`, `String()`, `{...v}` |
| `Rounding` | `Number(x.toFixed(n))` |
| `Units` | `whToKwh`, `wToKw`, `energyToWh`, `energyWhToAverageKwForQuarter` |
| `Urls` | `buildUrl` |
| `Dates` | `formatDateYmd`, `normalizeDate` |
| `Series` | `normalizeOverview`, `normalizeEnergyValues`, `mapIntradayToPowerPoints`, `mapDailyToEnergyDays`, `sumEnergyKwh` |
| `Config` | `DEFAULT_CONFIG`, `getRuntimeConfig`, `getPollingIntervalMs` |
| `Dashboard` | the dashboard model `fetchDashboardData` returns once the payloads have arrived |

Things the source reads from its environment become parameters:

- the global override `SOLAR_DASHBOARD_CONFIG` (`override`);
- the date `formatDateYmd` receives (year, month index, day);
- the three payloads `fetchDashboardData` fetches;
- the emissions factor the assembly multiplies by.

## Model

| member | source | states |
|---|---|---|
| `Config.GetRuntimeConfig` | assets/js/api.js:3-27 | The configuration has every default key plus every key of the override. `endpoints` is always an object. Its names are the default endpoint names plus the overridden ones. |
| `Config.Resolve` | assets/js/api.js:19-26 | For any defaults and spread overrides, the merged object has the defaults' keys, the override's keys and `endpoints`. `endpoints` is an object whose keys are the union of the two endpoint key sets. |
| `Config.ResolveLookup` | assets/js/api.js:19-26 | Key by key, an overridden property has the override's value and any other default keeps its value. Endpoint names merge the same way, one level deep. |
| `Config.ResolveIdempotent` | assets/js/api.js:19-26 | Feeding a resolved configuration back in as its own override, with its own endpoints, gives the same configuration. |
| `Config.GetRuntimeConfigLookup` | assets/js/api.js:16-26 | For the real defaults: an override property wins, an untouched default is kept, and each endpoint path likewise. |
| `Config.GetRuntimeConfigWithoutOverride` | assets/js/api.js:3-27 | With the global undefined, null or `{}`, the configuration is exactly `DEFAULT_CONFIG`: 15-minute polling, mock mode, 10 s timeout, 0.36 kg/kWh, 30 days and the two default paths. |
| `Config.GetRuntimeConfigIdempotent` | assets/js/api.js:16-27 | Using a resolved configuration as the override resolves to the same configuration. |
| `Config.GetRuntimeConfigPartialEndpoints` | assets/js/api.js:10-25 | Overriding only the energy path keeps the default overview path. The base URL comes from the override and `historyDays` stays 30. |
| `Config.GetPollingIntervalMs` | assets/js/api.js:180-182 | The override's `pollIntervalMs` when it has one, otherwise 900000 ms (15 minutes). |
| `JsValues.NumberValue` | assets/js/api.js:30 | `Number(v)` when finite. A number keeps its value. Null and `[]` are 0. Booleans are 0 or 1. A string, or a one-element array holding one, is read as decimal text. Undefined, objects and longer arrays are NaN. |
| `JsValues.ToNumber` | assets/js/api.js:29-32 | The numeric value when `Number()` gives a finite one, the fallback otherwise. |
| `JsValues.Spread` | assets/js/api.js:20-24 | Spreading an object copies exactly its own properties. Spreading a value that is neither an object nor an array nor a string copies nothing. |
| `JsValues.IndexKeyedElements` | assets/js/api.js:21 | Spreading an array (or a string) makes element `i` the property named by the decimal text of `i`. |
| `JsValues.IndexKeyedKeys` | assets/js/api.js:21 | Every property copied from an array is named by an index's decimal text. |
| `JsValues.ToNumberOfNumber` | assets/js/api.js:29-32 | A finite number passes through `toNumber` unchanged. |
| `JsValues.ToNumberFallback` | assets/js/api.js:29-32 | Undefined and objects give the fallback. Null gives 0. |
| `JsValues.ToNumberOfWords` | assets/js/api.js:29-32 | Non-numeric text such as "abc" gives the fallback. |
| `JsValues.ToNumberOfDecimalComma` | assets/js/api.js:29-32 | Text with a decimal comma, such as "1,5", gives the fallback. |
| `JsValues.NonNumericText` | assets/js/api.js:30 | A string that holds a non-digit is NaN to `Number()` when it has no whitespace, sign, point, exponent letter or radix letter and is not "Infinity". |
| `JsValues.ToNumberOfNumericText` | assets/js/api.js:29-32 | The decimal text of any integer reads back as that integer, also when wrapped in a one-element array. |
| `Decimal.StringToNumber` | assets/js/api.js:30 | `Number()` of an empty or all-whitespace string is 0. |
| `Decimal.StringToNumberOfDecimal` | assets/js/api.js:30 | `Number()` of an integer's printed text, negative ones included, is that integer. |
| `Decimal.SignedValueOfDecimal` | assets/js/api.js:30 | A leading '-' negates the digits that follow it. |
| `Dates.TwoDigitsOf` | assets/js/api.js:36-37 | A month or day from 1 to 99, padded, is exactly two digits whose value is the number. |
| `Dates.FormatDateYmd` | assets/js/api.js:34-39 | For every month index 0-11 and day 1-31 that the `Date` getters return, and any year, an independent parser reads the text back as the year, the month index plus one and the day. |
| `Dates.FourDigitYear` | assets/js/api.js:35 | A year from 1000 to 9999 prints as four digits. |
| `Dates.FormattedDateShape` | assets/js/api.js:34-39 | For a four-digit year the date text has ten characters and holds neither 'T' nor a space. |
| `Dates.FormattedDateNormalizes` | assets/js/api.js:34-46 | A formatted date normalises by appending "T00:00:00". The first ten characters of the timestamp give the date back. |
| `Dates.NormalizeDate` | assets/js/api.js:41-46 | The result is a string exactly when the input is a string, and every resulting timestamp contains 'T'. |
| `Dates.NormalizeDateOfString` | assets/js/api.js:43-45 | Text holding 'T' is kept as is. Otherwise the first space, and only that one, becomes 'T'. Otherwise "T00:00:00" is appended. |
| `Dates.NormalizeDateIdempotent` | assets/js/api.js:41-46 | Normalising a normalised timestamp changes nothing. |
| `Dates.NormalizeDateOfBareDate` | assets/js/api.js:45 | "2024-05-01" becomes "2024-05-01T00:00:00". |
| `Dates.NormalizeDateOfSpacedTime` | assets/js/api.js:44 | For any date and time without 'T', "date time" becomes "dateTtime". |
| `Dates.NormalizeDateOfOtherValues` | assets/js/api.js:42-43 | A full timestamp passes through. A number or null gives null. |
| `Dates.NormalizedDatePrefix` | assets/js/api.js:41-46 | Normalising leaves the first ten characters alone when they hold no space. |
| `Text.ToUpperIsKwh` | assets/js/api.js:57-60 | Upper-casing yields "KWH" exactly for the eight mixed-case spellings of kWh. |
| `Units.EnergyWhToAverageKwForQuarter` | assets/js/api.js:64-67 | The energy of one quarter hour divided by 0.25 h is the average power in W, here in kW. Multiplying back by 250 gives the Wh. |
| `Units.WhToKwh` | assets/js/api.js:48-50 | The kWh value times 1000 is the Wh value. |
| `Units.WToKw` | assets/js/api.js:52-54 | The kW value times 1000 is the W value. |
| `Units.NormalizedUnit` | assets/js/api.js:57 | A missing unit reads as "WH". A string unit is its upper-case text. |
| `Units.EnergyToWh` | assets/js/api.js:56-62 | For a kWh unit the result in kWh is the numeric value. For any other unit the result is the numeric value itself. A value `Number()` cannot read is 0 Wh. |
| `Units.IsKwhOfString` | assets/js/api.js:57-60 | A string unit counts as kWh if and only if it is one of the mixed-case spellings of kWh. |
| `Units.EnergyToWhOfKwh` | assets/js/api.js:56-61 | A value in any spelling of kWh is multiplied by 1000. |
| `Units.EnergyToWhOfOtherUnit` | assets/js/api.js:60-61 | Any unit that is not kWh leaves the value as it is. |
| `Units.EnergyToWhOfDefaultUnit` | assets/js/api.js:57-61 | An undefined or null unit, "Wh" and a numeric unit all mean Wh. |
| `Units.ArrayUnitIsNotKwh` | assets/js/api.js:57-60 | An array unit of two or more elements prints with a comma, so it is never kWh. |
| `Units.EnergyToWhOfNonNumeric` | assets/js/api.js:56-61 | A value `Number()` cannot read counts as 0 Wh, whatever the unit. |
| `Units.KwhRoundTrip` | assets/js/api.js:48-61 | kWh converted to Wh and back by `whToKwh` gives back the value. |
| `Units.QuarterHourExamples` | assets/js/api.js:64-67 | 250 Wh gives 1 kW, 1000 Wh gives 4 kW and 0 Wh gives 0 kW. |
| `Text.PadStart` | assets/js/api.js:36-37 | The padded text has the requested width (or more), ends with the original text and is filled in front. |
| `Text.Prefix` | assets/js/api.js:133 | The first `n` characters, or the whole of a shorter string. |
| `Text.ReplaceFirst` | assets/js/api.js:44 | Only the first occurrence is replaced. Everything before and after it is unchanged. |
| `Urls.WithoutTrailingSlash` | assets/js/api.js:71 | A base ending in '/' loses exactly that one character. Any other base is unchanged. |
| `Urls.WithLeadingSlash` | assets/js/api.js:72 | The path starts with '/'. One is added only when it was missing. |
| `Urls.BuildUrl` | assets/js/api.js:69-75 | An empty base gives the path unchanged. Otherwise the result is the base without its trailing slash, then one '/', then the rest of the path. |
| `Urls.BuildUrlSlashPlacement` | assets/js/api.js:69-75 | All four ways of writing the separating slash (on the base, on the path, on both, on neither) give `base/path`. |
| `Urls.BuildUrlExamples` | assets/js/api.js:69-75 | Sample URLs. A doubled trailing slash loses only one '/'. |
| `Series.Unwrap` | assets/js/api.js:89 | `raw?.key ?? raw ?? {}` is never nullish. It is the wrapped payload when there is one, otherwise the payload itself, and `{}` for an undefined or null payload. |
| `Series.NormalizeOverview` | assets/js/api.js:88-99 | Current power is `power` of a nested `currentPower` in kW when present, else a bare `currentPower` in kW, else 0. The last day's energy is its numeric value in kWh, or 0 when missing or non-numeric. The update time passes through, with null for a missing one. |
| `Series.NormalizeOverviewLastDayEnergy` | assets/js/api.js:96 | Whatever other keys the overview holds, a last day of e Wh is e / 1000 kWh. |
| `Series.NormalizeOverviewCurrentPower` | assets/js/api.js:92-94 | Whatever other keys the overview holds, a current power of w W, bare or as `{ power }`, is w / 1000 kW. |
| `Series.NormalizeOverviewWrapped` | assets/js/api.js:89 | `{ overview: {...} }` and the bare object normalise alike. |
| `Series.NormalizeOverviewPowerShapes` | assets/js/api.js:92-94 | Current power given as a bare number or as `{ power }` gives the same kW, W / 1000. |
| `Series.NormalizeOverviewMissing` | assets/js/api.js:88-99 | A missing overview gives 0 kW, 0 kWh and a null update time. |
| `Series.NormalizeOverviewUpdateTime` | assets/js/api.js:97 | A non-null update time passes through. |
| `Series.NormalizeItem` | assets/js/api.js:109-112 | A kept timestamp always contains 'T'. |
| `Series.KeepDated` | assets/js/api.js:113 | Exactly the dated entries are kept. Every dated entry appears in the result, every point comes from a dated entry, and nothing is dropped if and only if every entry has a date. |
| `Series.KeepDatedAppend` | assets/js/api.js:113 | Filtering a concatenation is the concatenation of the filtered parts, so order is kept. |
| `Series.KeepDatedAllDated` | assets/js/api.js:113 | When every entry is dated, the i-th point is the i-th entry. |
| `Series.NormalizeEnergyValues` | assets/js/api.js:101-115 | The unit is the payload's unit when present and "Wh" otherwise. There are no more points than input entries, and every timestamp contains 'T'. |
| `Series.NormalizeEnergyValuesKeepsDated` | assets/js/api.js:108-113 | Every entry with a string date appears among the points, with its normalised date and value. |
| `Series.SeriesItems` | assets/js/api.js:103 | A `values` array is taken whole. Anything else gives no entries. |
| `Series.NormalizeEnergyValuesWrapped` | assets/js/api.js:102 | `{ energy: {...} }` and the bare object normalise alike. |
| `Series.NormalizeEnergyValuesDefaults` | assets/js/api.js:102-104 | Without a `values` array and a unit, the series is empty and in Wh. |
| `Series.NormalizeEnergyValuesAllDated` | assets/js/api.js:108-113 | With every entry dated by a string, point i has entry i's normalised date and normalised value. |
| `Series.NormalizeNumericReadings` | assets/js/api.js:101-115 | Readings with string dates and numeric values normalise to the same values, in order, with the normalised dates. |
| `Series.NormalizeItemValue` | assets/js/api.js:111 | A null or missing value stays null. Any other value goes through `toNumber`, so 0 stays 0 and "abc" becomes 0. |
| `Series.UndatedEntryDropped` | assets/js/api.js:108-113 | An entry dated null is dropped and a dated one kept, whatever their values. |
| `Series.NormalizeEnergyValuesExample` | assets/js/api.js:101-115 | One bare-date entry and one undated entry give a single point at midnight. |
| `Series.MapIntradayToPowerPoints` | assets/js/api.js:117-126 | There is one point per reading, with the reading's timestamp. Power is within 0.005 kW of the reading's Wh/250, and a null reading gives 0 kW. |
| `Series.PowerPointOfKwhReading` | assets/js/api.js:119-123 | In a kWh series a quarter hour of x kWh is an average of 4x kW, rounded to hundredths. |
| `Series.MapIntradayAppend` | assets/js/api.js:118 | Mapping a concatenation maps each part. |
| `Series.MapDailyToEnergyDays` | assets/js/api.js:128-137 | There is one day per reading, dated by the first ten characters of its timestamp. Energy is within 0.05 kWh of the reading in kWh, and a null reading gives 0 kWh. |
| `Series.EnergyDayKeepsSourceDate` | assets/js/api.js:101-137 | A daily entry dated "YYYY-MM-DD…" with no space in its first ten characters keeps that date through normalisation and mapping. |
| `Series.TotalWhAppend` | assets/js/api.js:140-143 | The total of a concatenation is the sum of the totals. |
| `Series.TotalWh` | assets/js/api.js:139-146 | Readings that are each at least 0 Wh total at least 0 Wh. |
| `Series.ReduceStep` | assets/js/api.js:140-143 | One reducer step adds the reading's Wh. A null reading leaves the running total unchanged. |
| `Series.ReduceWh` | assets/js/api.js:140-143 | The left fold of the reducer from 0 equals the recursive sum of the readings, nulls counting 0. |
| `Series.SumEnergyKwh` | assets/js/api.js:139-146 | The series' energy in kWh is the total in Wh divided by 1000. |
| `Series.NullReadingCountsAsZero` | assets/js/api.js:141 | Skipping a null reading sums the same as a zero reading. |
| `Series.EnergyIsPowerTimesQuarterHours` | assets/js/api.js:139-146 | The day's energy is the sum of the unrounded quarter-hour average powers times 0.25 h. |
| `Dashboard.MaxOf` | assets/js/api.js:237 | `Math.max` of a non-empty list: no element exceeds it and some element equals it. |
| `Dashboard.PeakIsRounded` | assets/js/api.js:235-244 | The peak of the power curve is already rounded to hundredths, so rounding it again leaves it unchanged. |
| `Dashboard.AvoidedKg` | assets/js/api.js:245 | The CO2 figure is within 0.05 kg of the energy times the factor. |
| `Dashboard.Figures` | assets/js/api.js:231-246 | Current power is rounded to hundredths and the update time passes through. Without intraday points, today's energy is the last day's (one decimal) and the peak is the current power. With points, today's energy is the intraday sum (one decimal), no point exceeds the peak and some point reaches it. CO2 holds today's energy times the factor, to one decimal. |
| `Dashboard.AssembleDashboard` | assets/js/api.js:225-250 | There is one power point per dated intraday reading and one day per dated daily reading, dated by the first ten characters. Current power is the overview's, rounded to hundredths, and the update time passes through. Without power points, today's energy is the last day's and the peak is the current power. With points, today's energy is the intraday sum, no point exceeds the peak and some point reaches it. CO2 holds today's energy times the factor. |
| `Dashboard.FallbackFiguresExample` | assets/js/api.js:231-246 | 1.2 kW and 15 kWh without intraday points give 1.2 kW now and at peak, 15 kWh and 5.4 kg. |
| `Dashboard.SampleOverviewNormalizes` | assets/js/api.js:88-99 | `{ currentPower: { power: 1200 }, lastDayData: { energy: 15000 } }` is 1.2 kW and 15 kWh. |
| `Dashboard.DashboardWithoutIntradayReadings` | assets/js/api.js:225-250 | With a null intraday payload there are no power points and the overview figures are used. |
| `Dashboard.QuarterPowerOnGrid` | assets/js/api.js:119-123 | An energy that is a whole number of 2.5 Wh steps gives exactly Wh/250 kW after rounding. |
| `Dashboard.FourReadingsPower` | assets/js/api.js:117-126 | Quarter hours of 250, 500, 0 and 1000 Wh give a curve of 1, 2, 0 and 4 kW. |
| `Dashboard.FourReadingsTotal` | assets/js/api.js:139-146 | Those readings total 1750 Wh. |
| `Dashboard.FourReadingsRounding` | assets/js/api.js:233-245 | 1.75 kWh shows as 1.8, and 1.8 kWh at 0.36 kg/kWh as 0.6 kg. |
| `Dashboard.FourReadingsFigures` | assets/js/api.js:231-246 | For those readings today's energy is 1.8 kWh, the peak 4 kW and the CO2 avoided 0.6 kg. |
| `Dashboard.FourReadingsNormalize` | assets/js/api.js:101-115 | The raw payload of the four readings normalises to them, in Wh, with normalised timestamps. |
| `Dashboard.DashboardOfFourReadings` | assets/js/api.js:225-250 | End to end from the raw intraday payload: curve 1, 2, 0, 4 kW, 1.8 kWh today, peak 4 kW, 0.6 kg. |
| `Rounding.Round` | assets/js/api.js:123 | Rounding to n decimals moves a value by at most half a unit of the last decimal and keeps its sign. |
| `Rounding.RoundHasDigits` | assets/js/api.js:123 | The rounded value has at most n decimals. With the bound above, this makes it the nearest multiple of 10^-n. |
| `Rounding.RoundTiesAway` | assets/js/api.js:123 | When the value lies exactly halfway between two multiples of 10^-n, the result is the one farther from zero, as `toFixed` rounds. |
| `Rounding.RoundIdempotent` | assets/js/api.js:238-244 | Rounding a rounded value again changes nothing. |
| `Rounding.RoundMonotone` | assets/js/api.js:237-244 | Rounding preserves order. |

## Left out

- `fetchWithTimeout` (lines 148-178) is left out. The requests, the abort controller and timer, and the `Promise.all` of lines 199-223 are I/O and concurrency. Their results, the three raw payloads, are parameters of `Dashboard.AssembleDashboard`. A failed request or a payload with an `error` field rejects the promise, and that path is not modelled.
- The mock branch of `fetchDashboardData` (lines 187-190) is left out: the 250 ms delay and `buildMockDashboardData`. The mock data file is not part of this model.
- `new Date()` and `setDate` (lines 192-197) are left out, because they read the clock. `formatDateYmd` takes the year, month index and day as parameters, so `historyDays` only appears as a configuration value.
- `buildEnergyUrl` (lines 77-86) is left out. It depends on the `URL` class, the page origin and query-string encoding. `buildUrl`, which it calls, is modelled.
- Floating point is left out. Numbers are exact reals, so the binary representation of values such as 0.1 is not modelled. `toFixed` is modelled as exact decimal rounding (`Rounding.Round`), not as rounding of the nearest double: `(1.005).toFixed(2)` is "1.00" in JavaScript, because 1.005 is stored as slightly less, while `Round(1.005, 2)` is 1.01. `Number.isFinite` holds for every `Num`. NaN and infinities are `None` from `JsValues.NumberValue`.
- `Dashboard.AssembleDashboard` takes the emissions factor as a real parameter. It does not read `config.emissionsKgPerKwh` through `Number()` coercion.
- `Decimal.StringToNumber` does not model the exponent, hexadecimal, binary, octal or "Infinity" forms of `Number()`. They give `None`, which `toNumber` reads as the fallback. For "Infinity" that matches JavaScript. For exponent, hexadecimal, binary and octal text it does not: `Number("1e3")` is 1000, `Number("0x1F")` is 31, `Number("0b11")` is 3 and `Number("0o7")` is 7, while the model's `toNumber` gives the fallback.
- `JsValues.Stringify` does not model the text of a number; it gives `None` there. Only `energyToWh` inspects a stringified unit, and a number's text is never "KWH" once upper-cased, so this has no effect on the model's results.
- `JsValues.NumberValue` and `JsValues.Stringify` read every object as NaN and as "[object Object]". In JavaScript, an object (or an array holding one) whose own `"toString"` key holds a non-function (JSON cannot hold a function) makes `Number(v)` and `` `${v}` `` throw a `TypeError`, because no conversion method returns a primitive. So a reading such as `value: {"toString": 1}` (line 111) or such a `unit` (line 57) throws in the source, where the model gives the fallback 0 or treats the unit as Wh.
- `Text.ToUpper` upper-cases only ASCII letters. Full Unicode case mapping is not modelled. No non-ASCII letter upper-cases to the ASCII letters of "KWH".
- `JsValues.Get` reads only own properties of objects. Inherited properties (such as `Array.prototype.values`, which is not an array) are treated as absent, which gives the same results for the keys the pipeline reads.
- `Text.Prefix` and the other string operations count Unicode code points, because Dafny strings are sequences of code points. JavaScript's `slice(0, 10)` (line 133) counts UTF-16 code units, so a date that starts with a character outside the Basic Multilingual Plane is cut one character later in the model. Lone surrogates, which JSON strings may hold, cannot be represented.
- `JsValues.Spread` keys a spread string by code point, not by UTF-16 code unit, for the same reason.
- Key order of objects is not modelled. Configurations are maps.
- `Urls.BuildUrl` is not modelled for non-string arguments. The base and path are strings.
- `assets/js/mockData.js`, `assets/js/utils.js` and `assets/js/main.js` are not part of this model. They cover mock data, display formatting and the page's DOM and polling loop.
