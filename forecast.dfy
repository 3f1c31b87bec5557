/**
 * Forecast aggregation (getWeatherForecast's success path): the 3-hourly
 * samples are grouped by day key into buckets kept in an insertion-ordered
 * map, one record of daily means is built per bucket in that order, and the
 * list is cut to the requested number of days.
 *
 * The day key of a sample is `dayOf(dt)`, a parameter: the service derives
 * it from the process time zone. UtcDay is the UTC policy.
 */
module Forecast {
  import opened JsMath
  import opened WeatherData

  /** The UTC calendar day of a Unix time (floor division, so before 1970 too). */
  function UtcDay(dt: int): (d: int)
    ensures d * 86400 <= dt < d * 86400 + 86400
  {
    dt / 86400
  }

  /** A later instant never falls on an earlier day. */
  ghost predicate Monotone(dayOf: int -> int) {
    forall a: int, b: int :: a <= b ==> dayOf(a) <= dayOf(b)
  }

  lemma UtcDayMonotone()
    ensures Monotone(UtcDay)
  {
  }

  ghost predicate Distinct(keys: seq<int>) {
    forall p, q :: 0 <= p < q < |keys| ==> keys[p] != keys[q]
  }

  /** The day keys of the samples that fall on some day. */
  ghost function DaySet(s: seq<Sample>, dayOf: int -> int): set<int> {
    set j | 0 <= j < |s| :: dayOf(s[j].dt)
  }

  /**
   * The samples of day d, in the order received: the bucket that the grouping
   * loop builds for d.
   */
  function Bucket(s: seq<Sample>, dayOf: int -> int, d: int): (b: seq<Sample>)
    ensures forall x | x in b :: dayOf(x.dt) == d
    ensures b == [] <==> forall j | 0 <= j < |s| :: dayOf(s[j].dt) != d
    decreases |s|
  {
    if s == [] then []
    else Bucket(s[..|s| - 1], dayOf, d) + (if dayOf(s[|s| - 1].dt) == d then [s[|s| - 1]] else [])
  }

  /**
   * The distinct day keys of the samples, each where its first sample appears:
   * the insertion order of the grouping map.
   */
  function DayKeys(s: seq<Sample>, dayOf: int -> int): (keys: seq<int>)
    ensures forall k :: k in keys <==> exists j :: 0 <= j < |s| && dayOf(s[j].dt) == k
    ensures Distinct(keys)
    ensures forall k | k in keys :: Bucket(s, dayOf, k) != []
    decreases |s|
  {
    if s == [] then []
    else
      var keys := DayKeys(s[..|s| - 1], dayOf);
      var k := dayOf(s[|s| - 1].dt);
      assert forall j | 0 <= j < |s| - 1 :: s[..|s| - 1][j] == s[j];
      if k in keys then keys else keys + [k]
  }

  /** The five averaged quantities of a sample. */
  datatype Quantity = Temperature | FeelsLike | Humidity | Pressure | WindSpeed

  function Value(x: Sample, q: Quantity): real {
    match q
    case Temperature => x.temp
    case FeelsLike => x.feelsLike
    case Humidity => x.humidity as real
    case Pressure => x.pressure as real
    case WindSpeed => x.windSpeed
  }

  /** `items.reduce((sum, item) => sum + value, 0)`, added from the left. */
  function Sum(items: seq<Sample>, q: Quantity): (s: real)
    ensures |items| == 1 ==> s == Value(items[0], q)
    decreases |items|
  {
    if items == [] then 0.0 else Sum(items[..|items| - 1], q) + Value(items[|items| - 1], q)
  }

  /** The arithmetic mean over a non-empty bucket. */
  function Mean(items: seq<Sample>, q: Quantity): (m: real)
    requires |items| > 0
    ensures m * |items| as real == Sum(items, q)
  {
    Sum(items, q) / |items| as real
  }

  /**
   * The record of one day: temperature, feels-like, humidity and pressure are
   * the rounded means of the bucket, wind speed the mean to one decimal;
   * description and visibility are those of the bucket's first sample.
   */
  function DailyRecord(items: seq<Sample>, city: CityInfo, day: int): (r: WeatherRecord)
    requires |items| > 0
    ensures Mean(items, Temperature) - 0.5 < r.temperature as real <= Mean(items, Temperature) + 0.5
    ensures Mean(items, FeelsLike) - 0.5 < r.feelsLike as real <= Mean(items, FeelsLike) + 0.5
    ensures Mean(items, Humidity) - 0.5 < r.humidity as real <= Mean(items, Humidity) + 0.5
    ensures Mean(items, Pressure) - 0.5 < r.pressure as real <= Mean(items, Pressure) + 0.5
    ensures OneDecimal(r.windSpeed)
    ensures Mean(items, WindSpeed) - 0.05 < r.windSpeed <= Mean(items, WindSpeed) + 0.05
    ensures r.description == items[0].description
    ensures r.visibility == VisibilityKm(VisibilityOrDefault(items[0].visibility))
    ensures r.city == city.name && r.country == city.country
    ensures r.timestamp == StartOfDay(day)
  {
    WeatherRecord(
      temperature := Round(Mean(items, Temperature)),
      feelsLike := Round(Mean(items, FeelsLike)),
      humidity := Round(Mean(items, Humidity)),
      windSpeed := RoundTenth(Mean(items, WindSpeed)),
      description := items[0].description,
      visibility := VisibilityKm(VisibilityOrDefault(items[0].visibility)),
      pressure := Round(Mean(items, Pressure)),
      city := city.name,
      country := city.country,
      timestamp := StartOfDay(day))
  }

  /** One record per day key, in the order of the keys. */
  function DailyRecords(s: seq<Sample>, dayOf: int -> int, city: CityInfo): seq<WeatherRecord> {
    var keys := DayKeys(s, dayOf);
    seq(|keys|, i requires 0 <= i < |keys| => DailyRecord(Bucket(s, dayOf, keys[i]), city, keys[i]))
  }

  /**
   * JavaScript's `s.slice(0, end)`: a negative end counts back from the end
   * of the sequence.
   */
  function SliceTo<T>(s: seq<T>, end: int): (r: seq<T>)
    ensures r <= s
    ensures end >= 0 ==> |r| == if end < |s| then end else |s|
    ensures end < 0 ==> |r| == if |s| + end > 0 then |s| + end else 0
  {
    if end >= 0 then s[..if end < |s| then end else |s|]
    else s[..if |s| + end > 0 then |s| + end else 0]
  }

  /**
   * What getWeatherForecast returns for a payload and a day count: the first
   * `days` of the daily records, one per day key.
   */
  function ForecastOf(p: ForecastPayload, days: int, dayOf: int -> int): (f: seq<WeatherRecord>)
    ensures f <= DailyRecords(p.list, dayOf, p.city)
    ensures |DailyRecords(p.list, dayOf, p.city)| == |DayKeys(p.list, dayOf)|
    ensures days >= 0 ==> |f| == if days < |DayKeys(p.list, dayOf)| then days else |DayKeys(p.list, dayOf)|
  {
    SliceTo(DailyRecords(p.list, dayOf, p.city), days)
  }

  // ---------------------------------------------------------------------
  // The algorithm, as the service runs it.

  /**
   * The first loop: each sample is pushed onto the array of its day, a new
   * day getting an empty array first. `order` is the map's insertion order.
   */
  method GroupByDay(samples: seq<Sample>, dayOf: int -> int)
      returns (order: seq<int>, groups: map<int, seq<Sample>>)
    ensures order == DayKeys(samples, dayOf)
    ensures forall k :: k in groups <==> k in order
    ensures forall k | k in groups :: groups[k] == Bucket(samples, dayOf, k)
  {
    order, groups := [], map[];
    for i := 0 to |samples|
      invariant order == DayKeys(samples[..i], dayOf)
      invariant forall k :: k in groups <==> k in order
      invariant forall k | k in groups :: groups[k] == Bucket(samples[..i], dayOf, k)
    {
      var item := samples[i];
      var date := dayOf(item.dt);
      assert samples[..i + 1][..i] == samples[..i];
      if date !in groups {
        order := order + [date];
        groups := groups[date := []];
      }
      groups := groups[date := groups[date] + [item]];
    }
    assert samples[..|samples|] == samples;
  }

  /** The second loop: one record per group, in insertion order. */
  method AverageByDay(order: seq<int>, groups: map<int, seq<Sample>>, city: CityInfo)
      returns (forecasts: seq<WeatherRecord>)
    requires forall i | 0 <= i < |order| :: order[i] in groups && groups[order[i]] != []
    ensures |forecasts| == |order|
    ensures forall i | 0 <= i < |order| :: forecasts[i] == DailyRecord(groups[order[i]], city, order[i])
  {
    forecasts := [];
    for i := 0 to |order|
      invariant |forecasts| == i
      invariant forall j | 0 <= j < i :: forecasts[j] == DailyRecord(groups[order[j]], city, order[j])
    {
      var items := groups[order[i]];
      forecasts := forecasts + [DailyRecord(items, city, order[i])];
    }
  }

  /** Grouping, averaging and truncation together. */
  method AggregateForecast(p: ForecastPayload, days: int, dayOf: int -> int)
      returns (forecasts: seq<WeatherRecord>)
    ensures forecasts == ForecastOf(p, days, dayOf)
  {
    var order, groups := GroupByDay(p.list, dayOf);
    forall i | 0 <= i < |order| ensures order[i] in groups && groups[order[i]] != [] {
      assert order[i] in order;
    }
    var all := AverageByDay(order, groups, p.city);
    assert all == DailyRecords(p.list, dayOf, p.city);
    forecasts := SliceTo(all, days);
  }
}
