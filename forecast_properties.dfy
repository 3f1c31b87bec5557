/** What the forecast aggregation guarantees, proved about its specification. */
module ForecastProperties {
  import opened Wrappers
  import opened JsMath
  import opened WeatherData
  import opened Forecast

  // ---------------------------------------------------------------------
  // Buckets

  /**
   * The first element of a day's bucket is the first sample of that day in
   * the order received: the sample whose description and visibility the
   * day's record takes.
   */
  lemma BucketHeadIsFirstOfDay(s: seq<Sample>, dayOf: int -> int, d: int)
    requires Bucket(s, dayOf, d) != []
    ensures exists j :: 0 <= j < |s| && s[j] == Bucket(s, dayOf, d)[0] && dayOf(s[j].dt) == d &&
                        forall i | 0 <= i < j :: dayOf(s[i].dt) != d
  {
    var j := FirstOfDay(s, dayOf, d);
  }

  /** The position of the first sample of day d. */
  lemma {:induction false} FirstOfDay(s: seq<Sample>, dayOf: int -> int, d: int) returns (j: int)
    requires Bucket(s, dayOf, d) != []
    ensures 0 <= j < |s| && s[j] == Bucket(s, dayOf, d)[0] && dayOf(s[j].dt) == d
    ensures forall i | 0 <= i < j :: dayOf(s[i].dt) != d
  {
    var pre, x := s[..|s| - 1], s[|s| - 1];
    var b := Bucket(pre, dayOf, d);
    assert Bucket(s, dayOf, d) == b + (if dayOf(x.dt) == d then [x] else []);
    assert forall i | 0 <= i < |pre| :: pre[i] == s[i];
    if b != [] {
      j := FirstOfDay(pre, dayOf, d);
    } else {
      j := |s| - 1;
    }
  }

  /** The buckets of the given keys, one after the other. */
  ghost function Concat(keys: seq<int>, s: seq<Sample>, dayOf: int -> int): seq<Sample> {
    if keys == [] then []
    else Concat(keys[..|keys| - 1], s, dayOf) + Bucket(s, dayOf, keys[|keys| - 1])
  }

  /** Adding a sample of a day that is not among the keys leaves their buckets alone. */
  lemma {:induction false} ConcatOtherDay(keys: seq<int>, s: seq<Sample>, dayOf: int -> int, x: Sample)
    requires dayOf(x.dt) !in keys
    ensures Concat(keys, s + [x], dayOf) == Concat(keys, s, dayOf)
  {
    if keys != [] {
      var init := keys[..|keys| - 1];
      assert dayOf(x.dt) !in init by { assert forall k | k in init :: k in keys; }
      ConcatOtherDay(init, s, dayOf, x);
      assert (s + [x])[..|s + [x]| - 1] == s;
    }
  }

  /** Adding a sample of one of the (distinct) keys adds it to exactly one bucket. */
  lemma {:induction false} ConcatSameDay(keys: seq<int>, s: seq<Sample>, dayOf: int -> int, x: Sample)
    requires Distinct(keys) && dayOf(x.dt) in keys
    ensures multiset(Concat(keys, s + [x], dayOf)) == multiset(Concat(keys, s, dayOf)) + multiset{x}
  {
    var init, last := keys[..|keys| - 1], keys[|keys| - 1];
    assert (s + [x])[..|s + [x]| - 1] == s;
    assert forall k | k in init :: k in keys;
    if last == dayOf(x.dt) {
      assert dayOf(x.dt) !in init;
      ConcatOtherDay(init, s, dayOf, x);
    } else {
      assert dayOf(x.dt) in init;
      ConcatSameDay(init, s, dayOf, x);
    }
  }

  /**
   * Bucketing partitions the samples: taken together, the buckets of the day
   * keys hold every sample exactly once (and, by Bucket's contract, each in
   * the bucket of its own day).
   */
  lemma {:induction false} BucketsPartition(s: seq<Sample>, dayOf: int -> int)
    ensures multiset(Concat(DayKeys(s, dayOf), s, dayOf)) == multiset(s)
  {
    if s != [] {
      var pre, x := s[..|s| - 1], s[|s| - 1];
      assert s == pre + [x];
      BucketsPartition(pre, dayOf);
      var keys := DayKeys(pre, dayOf);
      if dayOf(x.dt) in keys {
        ConcatSameDay(keys, pre, dayOf, x);
      } else {
        ConcatOtherDay(keys, pre, dayOf, x);
        var keys' := keys + [dayOf(x.dt)];
        assert keys'[..|keys'| - 1] == keys;
        assert Bucket(pre, dayOf, dayOf(x.dt)) == [];
      }
    }
  }

  /** Every sample is in the bucket of its own day. */
  lemma {:induction false} SampleInItsBucket(s: seq<Sample>, dayOf: int -> int, j: int)
    requires 0 <= j < |s|
    ensures s[j] in Bucket(s, dayOf, dayOf(s[j].dt))
  {
    var pre := s[..|s| - 1];
    if j < |s| - 1 {
      assert pre[j] == s[j];
      SampleInItsBucket(pre, dayOf, j);
    }
  }

  // ---------------------------------------------------------------------
  // Day keys

  /**
   * Day keys appear in the order of their first samples: an earlier key has a
   * sample that comes before every sample of a later key.
   */
  lemma {:induction false} KeysFollowFirstAppearance(s: seq<Sample>, dayOf: int -> int, p: int, q: int)
    requires 0 <= p < q < |DayKeys(s, dayOf)|
    ensures exists i :: 0 <= i < |s| && dayOf(s[i].dt) == DayKeys(s, dayOf)[p] &&
                        forall j | 0 <= j <= i :: dayOf(s[j].dt) != DayKeys(s, dayOf)[q]
  {
    var pre := s[..|s| - 1];
    var keys, keys' := DayKeys(s, dayOf), DayKeys(pre, dayOf);
    var k := dayOf(s[|s| - 1].dt);
    assert forall j | 0 <= j < |pre| :: pre[j] == s[j];
    if k in keys' {
      assert keys == keys';
      KeysFollowFirstAppearance(pre, dayOf, p, q);
      var i := PrefixWitness(pre, s, dayOf, keys[p], keys[q]);
    } else if q < |keys'| {
      assert keys == keys' + [k];
      KeysFollowFirstAppearance(pre, dayOf, p, q);
      var i := PrefixWitness(pre, s, dayOf, keys[p], keys[q]);
    } else {
      assert keys == keys' + [k];
      assert keys[p] == keys'[p] && keys'[p] in keys';
      NewKeyAbsentBefore(s, dayOf, keys[p]);
    }
  }

  /** A witness among the first samples of a sequence is a witness in the whole of it. */
  lemma PrefixWitness(pre: seq<Sample>, s: seq<Sample>, dayOf: int -> int, a: int, b: int) returns (i: int)
    requires |pre| <= |s| && forall j | 0 <= j < |pre| :: pre[j] == s[j]
    requires exists i :: 0 <= i < |pre| && dayOf(pre[i].dt) == a &&
                         forall j | 0 <= j <= i :: dayOf(pre[j].dt) != b
    ensures 0 <= i < |s| && dayOf(s[i].dt) == a && forall j | 0 <= j <= i :: dayOf(s[j].dt) != b
  {
    i :| 0 <= i < |pre| && dayOf(pre[i].dt) == a && forall j | 0 <= j <= i :: dayOf(pre[j].dt) != b;
  }

  /**
   * When the last sample opens a new day, every other day has a sample before
   * any sample of that new day.
   */
  lemma NewKeyAbsentBefore(s: seq<Sample>, dayOf: int -> int, a: int)
    requires |s| > 0
    requires dayOf(s[|s| - 1].dt) !in DayKeys(s[..|s| - 1], dayOf)
    requires a in DayKeys(s[..|s| - 1], dayOf)
    ensures exists i :: 0 <= i < |s| && dayOf(s[i].dt) == a &&
                        forall j | 0 <= j <= i :: dayOf(s[j].dt) != dayOf(s[|s| - 1].dt)
  {
    var pre := s[..|s| - 1];
    var i :| 0 <= i < |pre| && dayOf(pre[i].dt) == a;
    assert forall j | 0 <= j < |pre| :: pre[j] == s[j];
    assert forall j | 0 <= j < |pre| :: dayOf(pre[j].dt) != dayOf(s[|s| - 1].dt);
  }

  ghost predicate SortedByTime(s: seq<Sample>) {
    forall i, j :: 0 <= i < j < |s| ==> s[i].dt <= s[j].dt
  }

  /**
   * When the samples arrive in time order and the day of an instant never
   * goes backwards, the day keys come out in strictly increasing order.
   */
  lemma KeysChronologicalWhenSorted(s: seq<Sample>, dayOf: int -> int)
    requires SortedByTime(s) && Monotone(dayOf)
    ensures forall p, q :: 0 <= p < q < |DayKeys(s, dayOf)| ==> DayKeys(s, dayOf)[p] < DayKeys(s, dayOf)[q]
  {
    var keys := DayKeys(s, dayOf);
    forall p, q | 0 <= p < q < |keys| ensures keys[p] < keys[q] {
      KeysFollowFirstAppearance(s, dayOf, p, q);
      var i :| 0 <= i < |s| && dayOf(s[i].dt) == keys[p] &&
               forall j | 0 <= j <= i :: dayOf(s[j].dt) != keys[q];
      assert keys[q] in keys;
      var j :| 0 <= j < |s| && dayOf(s[j].dt) == keys[q];
      assert i < j;
    }
  }

  /** A sequence without repetitions has as many elements as its set of values. */
  lemma {:induction false} DistinctCardinality(keys: seq<int>)
    requires Distinct(keys)
    ensures |set k | k in keys| == |keys|
  {
    if keys != [] {
      var init := keys[..|keys| - 1];
      DistinctCardinality(init);
      assert (set k | k in keys) == (set k | k in init) + {keys[|keys| - 1]};
    }
  }

  /** There is one key per distinct day among the samples. */
  lemma KeyCount(s: seq<Sample>, dayOf: int -> int)
    ensures |DayKeys(s, dayOf)| == |DaySet(s, dayOf)|
  {
    var keys := DayKeys(s, dayOf);
    DistinctCardinality(keys);
    assert (set k | k in keys) == DaySet(s, dayOf);
  }

  // ---------------------------------------------------------------------
  // Daily means

  /** k copies of a added up: a * k without a product. */
  ghost function Times(a: real, k: nat): real {
    if k == 0 then 0.0 else Times(a, k - 1) + a
  }

  lemma {:induction false} TimesIsProduct(a: real, k: nat)
    ensures Times(a, k) == a * k as real
  {
    if k > 0 {
      TimesIsProduct(a, k - 1);
      assert a * k as real == a * (k - 1) as real + a;
    }
  }

  /** The sum of n values all within [lo, hi] lies between n copies of lo and n copies of hi. */
  lemma {:induction false} SumWithin(items: seq<Sample>, q: Quantity, lo: real, hi: real)
    requires forall x | x in items :: lo <= Value(x, q) <= hi
    ensures Times(lo, |items|) <= Sum(items, q) <= Times(hi, |items|)
  {
    if items != [] {
      var init := items[..|items| - 1];
      assert forall x | x in init :: x in items;
      assert items[|items| - 1] in items;
      SumWithin(init, q, lo, hi);
    }
  }

  /** Dividing lo * n <= s <= hi * n by a positive n. */
  lemma DivideWithin(s: real, n: real, lo: real, hi: real)
    requires n > 0.0 && lo * n <= s <= hi * n
    ensures lo <= s / n <= hi
  {
    assert s / n * n == s;
    assert (s / n - lo) * n >= 0.0;
    assert (hi - s / n) * n >= 0.0;
  }

  /** A day's mean lies between the least and the greatest of its samples. */
  lemma MeanWithin(items: seq<Sample>, q: Quantity, lo: real, hi: real)
    requires |items| > 0
    requires forall x | x in items :: lo <= Value(x, q) <= hi
    ensures lo <= Mean(items, q) <= hi
  {
    SumWithin(items, q, lo, hi);
    TimesIsProduct(lo, |items|);
    TimesIsProduct(hi, |items|);
    var n, sum := |items| as real, Sum(items, q);
    assert lo * n <= sum;
    assert sum <= hi * n;
    DivideWithin(Sum(items, q), |items| as real, lo, hi);
  }

  /** So a day's rounded temperature lies between the rounded extremes of its samples. */
  lemma DailyTemperatureWithin(items: seq<Sample>, city: CityInfo, day: int, lo: real, hi: real)
    requires |items| > 0
    requires forall x | x in items :: lo <= x.temp <= hi
    ensures Round(lo) <= DailyRecord(items, city, day).temperature <= Round(hi)
  {
    MeanWithin(items, Temperature, lo, hi);
    RoundMonotone(lo, Mean(items, Temperature));
    RoundMonotone(Mean(items, Temperature), hi);
  }

  lemma MeanOfOne(x: Sample, q: Quantity)
    ensures Mean([x], q) == Value(x, q)
  {
    assert [x][..0] == [];
    assert Sum([x], q) == Value(x, q);
  }

  /** A day with a single sample gets that sample's own values, rounded. */
  lemma SingleSampleDay(x: Sample, city: CityInfo, day: int)
    ensures DailyRecord([x], city, day) ==
            WeatherRecord(Round(x.temp), Round(x.feelsLike), x.humidity, RoundTenth(x.windSpeed),
                          x.description, VisibilityKm(VisibilityOrDefault(x.visibility)), x.pressure,
                          city.name, city.country, StartOfDay(day))
  {
    MeanOfOne(x, Temperature);
    MeanOfOne(x, FeelsLike);
    MeanOfOne(x, Humidity);
    MeanOfOne(x, Pressure);
    MeanOfOne(x, WindSpeed);
    RoundOfInteger(x.humidity);
    RoundOfInteger(x.pressure);
  }

  // ---------------------------------------------------------------------
  // The forecast

  /**
   * With a non-negative day count the forecast has min(days, number of
   * distinct days) records; a negative count drops that many days from the end.
   */
  lemma ForecastLength(p: ForecastPayload, days: int, dayOf: int -> int)
    ensures var n := |DaySet(p.list, dayOf)|;
            var f := ForecastOf(p, days, dayOf);
            (days >= 0 ==> |f| <= days && |f| == if days < n then days else n) &&
            (days < 0 ==> |f| == if n + days > 0 then n + days else 0)
  {
    KeyCount(p.list, dayOf);
  }

  /** Record i of the forecast is the record of the i-th day key's bucket. */
  lemma ForecastRecord(p: ForecastPayload, days: int, dayOf: int -> int, i: int)
    requires 0 <= i < |ForecastOf(p, days, dayOf)|
    ensures var d := DayKeys(p.list, dayOf)[i];
            Bucket(p.list, dayOf, d) != [] &&
            ForecastOf(p, days, dayOf)[i] == DailyRecord(Bucket(p.list, dayOf, d), p.city, d)
  {
    assert DayKeys(p.list, dayOf)[i] in DayKeys(p.list, dayOf);
  }

  /**
   * Every record is stamped with the payload's city and country, whatever the
   * caller asked for.
   */
  lemma ForecastCity(p: ForecastPayload, days: int, dayOf: int -> int)
    ensures forall r | r in ForecastOf(p, days, dayOf) :: r.city == p.city.name && r.country == p.city.country
  {
    var f := ForecastOf(p, days, dayOf);
    forall r | r in f ensures r.city == p.city.name && r.country == p.city.country {
      var i :| 0 <= i < |f| && f[i] == r;
      ForecastRecord(p, days, dayOf, i);
    }
  }

  /**
   * Description and visibility of a record are those of the first sample of
   * its day, never a blend.
   */
  lemma ForecastFirstSample(p: ForecastPayload, days: int, dayOf: int -> int, i: int)
    requires 0 <= i < |ForecastOf(p, days, dayOf)|
    ensures var r := ForecastOf(p, days, dayOf)[i];
            r.timestamp.StartOfDay? &&
            exists j :: 0 <= j < |p.list| && dayOf(p.list[j].dt) == r.timestamp.day &&
                        (forall k | 0 <= k < j :: dayOf(p.list[k].dt) != r.timestamp.day) &&
                        r.description == p.list[j].description &&
                        r.visibility == VisibilityKm(VisibilityOrDefault(p.list[j].visibility))
  {
    ForecastRecord(p, days, dayOf, i);
    BucketHeadIsFirstOfDay(p.list, dayOf, DayKeys(p.list, dayOf)[i]);
  }

  /**
   * One record per day: the records are for distinct days, each a day of some
   * sample, and when the count does not cut the list every such day has one.
   */
  lemma ForecastOnePerDay(p: ForecastPayload, days: int, dayOf: int -> int)
    ensures var f := ForecastOf(p, days, dayOf);
            (forall i | 0 <= i < |f| :: f[i].timestamp.StartOfDay? && f[i].timestamp.day in DaySet(p.list, dayOf)) &&
            (forall i, j | 0 <= i < j < |f| :: f[i].timestamp != f[j].timestamp) &&
            (days >= |DaySet(p.list, dayOf)| ==>
               forall d | d in DaySet(p.list, dayOf) :: exists i :: 0 <= i < |f| && f[i].timestamp == StartOfDay(d))
  {
    var f, keys := ForecastOf(p, days, dayOf), DayKeys(p.list, dayOf);
    forall i | 0 <= i < |f| ensures f[i].timestamp == StartOfDay(keys[i]) && keys[i] in DaySet(p.list, dayOf) {
      ForecastRecord(p, days, dayOf, i);
      assert keys[i] in keys;
    }
    KeyCount(p.list, dayOf);
    if days >= |DaySet(p.list, dayOf)| {
      forall d | d in DaySet(p.list, dayOf) ensures exists i :: 0 <= i < |f| && f[i].timestamp == StartOfDay(d) {
        assert d in keys;
        var i :| 0 <= i < |keys| && keys[i] == d;
        ForecastRecord(p, days, dayOf, i);
      }
    }
  }

  /**
   * The records follow the samples' days in order of first appearance; when
   * the samples arrive in time order the forecast is chronological.
   */
  lemma ForecastChronological(p: ForecastPayload, days: int, dayOf: int -> int)
    requires SortedByTime(p.list) && Monotone(dayOf)
    ensures var f := ForecastOf(p, days, dayOf);
            forall i, j | 0 <= i < j < |f| ::
              f[i].timestamp.StartOfDay? && f[j].timestamp.StartOfDay? && f[i].timestamp.day < f[j].timestamp.day
  {
    var f := ForecastOf(p, days, dayOf);
    KeysChronologicalWhenSorted(p.list, dayOf);
    forall i, j | 0 <= i < j < |f|
      ensures f[i].timestamp.StartOfDay? && f[j].timestamp.StartOfDay? && f[i].timestamp.day < f[j].timestamp.day
    {
      ForecastRecord(p, days, dayOf, i);
      ForecastRecord(p, days, dayOf, j);
    }
  }

  /** There is no sort: samples that arrive out of order give days out of order. */
  lemma ForecastKeepsArrivalOrder()
    ensures var later := Sample(86400, 10.0, 10.0, 50, 1000, 1.0, "a", None);
            var earlier := Sample(0, 10.0, 10.0, 50, 1000, 1.0, "b", None);
            var f := ForecastOf(ForecastPayload([later, earlier], CityInfo("Tokyo", "JP")), 5, UtcDay);
            |f| == 2 && f[0].timestamp == StartOfDay(1) && f[1].timestamp == StartOfDay(0)
  {
    var later := Sample(86400, 10.0, 10.0, 50, 1000, 1.0, "a", None);
    var earlier := Sample(0, 10.0, 10.0, 50, 1000, 1.0, "b", None);
    var s := [later, earlier];
    assert s[..1] == [later];
    assert [later][..0] == [];
    assert UtcDay(86400) == 1 && UtcDay(0) == 0;
    assert DayKeys([later], UtcDay) == [1];
    assert DayKeys(s, UtcDay) == [1, 0];
  }

  /**
   * The service's worked example: two samples of 2022-01-01 (UTC) with
   * temperatures 15.2/16.8, feels-like 16.1/17.5, humidity 70/68, pressure
   * 1012/1011 and wind 2.5/3.1 give, for two requested days, exactly one record:
   * 16, 17, 69, 1012 and 2.8, with the first sample's description and
   * visibility (10000 m, so 10 km).
   */
  lemma ForecastExample()
    ensures var s1 := Sample(1640995200, 15.2, 16.1, 70, 1012, 2.5, "晴れ", Some(10000.0));
            var s2 := Sample(1641006000, 16.8, 17.5, 68, 1011, 3.1, "曇り", Some(8000.0));
            ForecastOf(ForecastPayload([s1, s2], CityInfo("Tokyo", "JP")), 2, UtcDay) ==
              [WeatherRecord(16, 17, 69, 2.8, "晴れ", 10.0, 1012, "Tokyo", "JP", StartOfDay(18993))]
  {
    var s1 := Sample(1640995200, 15.2, 16.1, 70, 1012, 2.5, "晴れ", Some(10000.0));
    var s2 := Sample(1641006000, 16.8, 17.5, 68, 1011, 3.1, "曇り", Some(8000.0));
    var s := [s1, s2];
    assert s[..1] == [s1];
    assert [s1][..0] == [];
    assert UtcDay(1640995200) == 18993 && UtcDay(1641006000) == 18993;
    assert DayKeys([s1], UtcDay) == [18993];
    assert DayKeys(s, UtcDay) == [18993];
    assert Bucket([s1], UtcDay, 18993) == [s1];
    assert Bucket(s, UtcDay, 18993) == s;
    forall q ensures Sum(s, q) == Value(s1, q) + Value(s2, q) {
      assert Sum([s1], q) == Value(s1, q);
    }
    assert Mean(s, Temperature) == 16.0;
    assert Mean(s, FeelsLike) == 16.8;
    assert Mean(s, Humidity) == 69.0;
    assert Mean(s, Pressure) == 1011.5;
    assert Mean(s, WindSpeed) == 2.8;
    var city := CityInfo("Tokyo", "JP");
    assert DailyRecords(s, UtcDay, city) == [DailyRecord(s, city, 18993)];
    RoundUnique(16.0, 16);
    RoundUnique(16.8, 17);
    RoundUnique(69.0, 69);
    RoundUnique(1011.5, 1012);
    RoundUnique(28.0, 28);
    RoundUnique(100.0, 100);
  }
}
