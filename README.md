# WeatherService, modelled in Dafny

A model of the `WeatherService` class of weather-mcp-server
(`src/services/weather.ts`). The class asks the OpenWeatherMap API for the
current weather or a 3-hourly forecast of a city and turns the answer into
`WeatherData` records. The model covers the parts of the class that do not
depend on the network:

- **Current weather.** The payload becomes one record. Temperature and
  feels-like are rounded to whole degrees. Wind speed is rounded to one
  decimal. Visibility is converted from metres to kilometres and rounded to
  one decimal. Humidity and pressure are copied unchanged.
- **Forecast.** The samples are grouped by day key into an insertion-ordered
  map (the first loop). Each group becomes one record of daily means (the
  second loop): temperature, feels-like, humidity and pressure are rounded
  means, and wind speed is the mean rounded to one decimal. Description and
  visibility come from the group's first sample. Every record carries the
  payload's city and country. The list is then cut with `slice(0, days)`.
- **Errors.** A failed call is classified by HTTP status: 404 means "city not
  found" (naming the city), 401 means "invalid API key", any other HTTP client
  error is a generic fetch failure, and anything else is "unexpected".
- **Construction.** Building the service fails exactly when the API key is
  unset or empty.

Files:

- `wrappers.dfy`: `Option` and `Result`.
- `js_math.dfy`: `Math.round` and the one-decimal rule.
- `weather_data.dfy`: the payloads, the output record and the visibility rules.
- `current.dfy`: current-weather normalisation.
- `forecast.dfy`: the forecast algorithm, as loops proved against specification functions.
- `forecast_properties.dfy`: what the forecast guarantees.
- `errors.dfy`: error classification and messages.
- `service.dfy`: the class, its requests and its two operations.

Modelling policies:

- **Numbers.** Values are exact `real`s, not IEEE doubles.
- **Rounding.** `Math.round(x)` is `floor(x + 0.5)`, as in JavaScript. Halves
  round towards +infinity, so 2.5 gives 3 and -2.5 gives -2.
- **Day key.** The source buckets by `new Date(dt * 1000).toDateString()`,
  which depends on the process time zone. The model makes the day key a
  function `dayOf` of the Unix time, held by the service. `Forecast.UtcDay`
  (`dt / 86400`) is the UTC policy and is used in the worked examples. The
  ordering results assume only that `dayOf` never goes backwards in time.
- **Provider.** The provider is a parameter `provider` that maps the request
  to either a payload or the thrown error. The wall clock used for the
  current-weather timestamp is a parameter too.
- **Integer fields.** Humidity and pressure are integers in the provider's
  payloads.

Where the code behaves differently from what its tests or a reader of the
service might expect, the model follows the code:

- **Network errors.** An HTTP-client error that got no response (for example,
  a network error raised by the client) has no status. It is neither 404 nor
  401, so it becomes the generic "fetch failed" error, not "unexpected". Only
  errors that do not come from the HTTP client are "unexpected"
  (`Errors.Classify`).
- **Forecast order.** The forecast is not sorted. Records come in the order
  in which each day first appears among the samples. They are chronological
  when the samples arrive in time order (`ForecastProperties.ForecastChronological`),
  and out of order otherwise (`ForecastProperties.ForecastKeepsArrivalOrder`).
- **Day count.** `days` is not validated. With `slice(0, days)`, a count of 0
  gives no records, and a negative count drops that many days from the end
  (`ForecastProperties.ForecastLength`).
- **Visibility in the service test.** The test at
  `tests/services/weather.test.ts:213` expects visibility 9 for two samples of
  10000 m and 8000 m. The code takes the first sample's visibility, which gives
  10. The model follows the code (`ForecastProperties.ForecastExample`).

## Model

| member | source | states |
|---|---|---|
| JsMath.Round | src/services/weather.ts:44-45 | `Math.round` gives an integer within half a unit of x: x - 0.5 < r <= x + 0.5, so ties go up |
| JsMath.RoundTenth | src/services/weather.ts:47 | `Math.round(x * 10) / 10` has one decimal and lies within 0.05 of x (ties up) |
| JsMath.RoundUnique | src/services/weather.ts:44 | the integer within half a unit of x (ties up) is the only value `Math.round` can return |
| JsMath.RoundMonotone | src/services/weather.ts:102 | rounding preserves order |
| JsMath.RoundOfInteger | src/services/weather.ts:104 | rounding leaves whole numbers unchanged, so an integer mean of humidity or pressure is kept exactly |
| JsMath.RoundTenthOfOneDecimal | src/services/weather.ts:105 | the one-decimal rule leaves a value that already has one decimal unchanged |
| JsMath.RoundHalves | src/services/weather.ts:44 | JavaScript semantics on halves: 2.5 -> 3, -2.5 -> -2, 0.5 -> 1, -0.5 -> 0 |
| WeatherData.VisibilityKm | src/services/weather.ts:49 | metres to kilometres with one decimal, within 0.05 km of metres / 1000 |
| WeatherData.VisibilityOrDefault | src/services/weather.ts:107 | a missing or zero (falsy) visibility becomes the 10000 m default; any other value is kept |
| Current.NormalizeCurrent | src/services/weather.ts:43-54 | temperature and feels-like within half a degree of the payload's; wind within 0.05 with one decimal; visibility in km within 0.05 with one decimal; humidity, pressure, description, city and country copied; timestamp is the clock |
| Current.NormalizeCurrentExample | tests/services/weather.test.ts:59-88 | 20.5 C -> 21, 22.1 -> 22, wind 3.2 -> 3.2, 10000 m -> 10 km, humidity 65 and pressure 1013 unchanged |
| Forecast.UtcDay | src/services/weather.ts:86 | the UTC stand-in for `toDateString()`: the day d whose 86400-second span [d * 86400, d * 86400 + 86400) contains the Unix time |
| Forecast.UtcDayMonotone | src/services/weather.ts:86 | under the UTC policy a later instant never has an earlier day key |
| Forecast.Bucket | src/services/weather.ts:85-91 | a day's bucket holds only samples of that day, and is empty exactly when no sample falls on that day |
| Forecast.DayKeys | src/services/weather.ts:85-91 | the map's keys: exactly the days of the samples, each once, each with a non-empty bucket |
| Forecast.Sum | src/services/weather.ts:95-99 | the `reduce` from 0 over a bucket, added from the left; a one-sample bucket sums to that sample's value (SumWithin bounds it in general) |
| Forecast.Mean | src/services/weather.ts:95-99 | the mean times the bucket size is the bucket's sum |
| Forecast.DailyRecord | src/services/weather.ts:101-112 | temperature, feels-like, humidity and pressure are within half a unit of the bucket means; wind is within 0.05 of the mean with one decimal; description and visibility are the first sample's; city, country and day are stamped |
| Forecast.SliceTo | src/services/weather.ts:115 | `slice(0, end)`: a prefix of length min(end, n), or max(n + end, 0) for a negative end |
| Forecast.ForecastOf | src/services/weather.ts:81-115 | the success result: a prefix of the daily records, which number one per day key; for days >= 0 it holds min(days, number of day keys) records |
| Forecast.GroupByDay | src/services/weather.ts:82-91 | the grouping loop yields the insertion order DayKeys, and for every key its bucket |
| Forecast.AverageByDay | src/services/weather.ts:94-113 | the averaging loop yields one DailyRecord per key, in insertion order |
| Forecast.AggregateForecast | src/services/weather.ts:81-115 | grouping, averaging and slicing together compute ForecastOf |
| ForecastProperties.BucketHeadIsFirstOfDay | src/services/weather.ts:106-107 | a bucket's first element is the first sample of its day in arrival order |
| ForecastProperties.BucketsPartition | src/services/weather.ts:85-91 | the buckets of the day keys, taken together, are a permutation of the samples: each sample lands in exactly one bucket |
| ForecastProperties.SampleInItsBucket | src/services/weather.ts:86-90 | every sample is in the bucket of its own day |
| ForecastProperties.KeysFollowFirstAppearance | src/services/weather.ts:87-89 | of two day keys, the earlier one has a sample before every sample of the later one |
| ForecastProperties.KeysChronologicalWhenSorted | src/services/weather.ts:94 | samples in time order and a monotone day key give strictly increasing day keys |
| ForecastProperties.KeyCount | src/services/weather.ts:87-89 | there are as many keys as distinct days among the samples |
| ForecastProperties.MeanWithin | src/services/weather.ts:95-99 | a bucket's mean lies between the least and the greatest of its values |
| ForecastProperties.DailyTemperatureWithin | src/services/weather.ts:102 | a day's temperature lies between the rounded coldest and the rounded warmest sample |
| ForecastProperties.SingleSampleDay | src/services/weather.ts:95-108 | a day with one sample gets that sample's own values, rounded |
| ForecastProperties.ForecastLength | src/services/weather.ts:115 | for days >= 0, at most `days` records, exactly min(days, distinct days); for days < 0, max(distinct days + days, 0) |
| ForecastProperties.ForecastRecord | src/services/weather.ts:94-113 | record i is the daily record of the i-th day key's bucket |
| ForecastProperties.ForecastCity | src/services/weather.ts:109-110 | every record carries the payload's city name and country, not the caller's input |
| ForecastProperties.ForecastFirstSample | src/services/weather.ts:106-107 | a record's description and visibility are those of the first sample of its day |
| ForecastProperties.ForecastOnePerDay | src/services/weather.ts:85-113 | records are for distinct days that occur among the samples; without truncation every such day has a record |
| ForecastProperties.ForecastChronological | src/services/weather.ts:94-113 | with samples in time order and a monotone day key, record days strictly increase |
| ForecastProperties.ForecastKeepsArrivalOrder | src/services/weather.ts:94 | there is no sort: a later day arriving first comes out first |
| ForecastProperties.ForecastExample | tests/services/weather.test.ts:188-218 | two samples of 2022-01-01 with two days requested give exactly one record: 16, 17, 69, 1012, wind 2.8, the first sample's description, 10 km |
| Errors.Classify | src/services/weather.ts:56-65 | 404 iff "city not found" with the caller's city; 401 iff "invalid API key"; any other HTTP-client error (status or none) iff a fetch failure carrying its message; a non-client error iff "unexpected", with its message or "unknown error" |
| Errors.Message | src/services/weather.ts:56-65 | each kind has its own fixed wording (the forecast's generic failure is worded as at lines 117-126); the "city not found" text is the opening `都市 "`, the caller's city literally, and the closing `" が見つかりませんでした`; the generic and unexpected texts carry the underlying error's message right after their fixed prefix |
| Errors.MessageInjective | src/services/weather.ts:117-126 | different classified errors are thrown with different messages |
| Service.ApiKeyFrom | src/services/weather.ts:24 | the key is empty exactly when the variable is unset or empty; otherwise it is the variable's value |
| Service.OrDefault | src/services/weather.ts:69 | an omitted parameter takes its default; a given one is used as is |
| Service.NewWeatherService | src/services/weather.ts:23-28 | construction fails, with the configuration message, exactly when the key is unset or empty; otherwise the service holds that key, the provider's base URL and the day key |
| Service.WeatherService.constructor | src/services/weather.ts:19-28 | a service holds a non-empty key and the provider's base URL |
| Service.WeatherService.CurrentQuery | src/services/weather.ts:32-39 | the current-weather request asks /weather for `city,country` (country defaults to JP) with the key, metric units and Japanese |
| Service.WeatherService.ForecastQuery | src/services/weather.ts:71-79 | the forecast request asks /forecast likewise, for days x 8 samples (days defaults to 5) |
| Service.WeatherService.GetCurrentWeather | src/services/weather.ts:30-67 | a payload gives its normalised record; a thrown error gives its classification for the current-weather request |
| Service.WeatherService.GetWeatherForecast | src/services/weather.ts:69-128 | a payload gives ForecastOf it, at most `days` records stamped with the payload's city; a thrown error gives its classification for the forecast request |
| Service.DefaultForecastRequest | tests/services/weather.test.ts:221-237 | with neither country nor days given, the request is for `city,JP` and 40 samples |

## Left out

- **Network calls.** The `axios.get` calls are not modelled. The provider is a
  parameter, from the request to a payload or a thrown error.
- **Environment.** `dotenv` and `process.env` are not modelled. The
  environment variable is a parameter of `Service.NewWeatherService`.
- **Timestamps.** `new Date()` (wall clock) is not modelled. The current
  record's timestamp is a caller-supplied clock value. `new Date(date)` for
  forecast records is modelled as the start of the record's day key, not as an
  instant.
- **Local time zone.** The local-time-zone behaviour of `toDateString()` is
  replaced by the `dayOf` parameter.
- **Floating point.** IEEE rounding errors and NaN are not modelled. Among
  other things, this leaves out the NaN visibility a current payload without
  `visibility` would produce, and a NaN forecast visibility, which `||` would
  also replace by 10000.
- **Malformed payloads.** A payload missing `main`, `wind` or `weather[0]`
  makes the source throw a TypeError inside its `try`, which is then reported
  as "unexpected". The payload types here always have these fields.
- **Non-integer `days`.** A `days` of NaN (from `parseInt` of a non-number)
  is not modelled; `days` is an integer.
- **Async execution.** The `async`/`await` structure has a single suspension
  point and no concurrency logic.
- **Routing.** The Express routing in src/index.ts and api/index.ts is not
  part of this model.
