/**
 * The WeatherService class: its configuration, the requests it sends to the
 * provider, and its two operations. The provider call itself is a parameter
 * `provider` from the request to what came back (a payload or a thrown error);
 * the service calls it exactly once per operation.
 */
module Service {
  import opened Wrappers
  import opened WeatherData
  import opened Current
  import opened Forecast
  import opened ForecastProperties
  import opened Errors

  const BaseUrl: string := "https://api.openweathermap.org/data/2.5"
  const DefaultCountry: string := "JP"
  const DefaultDays: int := 5
  /** The provider reports every 3 hours: eight samples a day. */
  const SamplesPerDay: int := 8

  const MissingKeyMessage: string := "OPENWEATHER_API_KEYが設定されていません。.envファイルを確認してください。"

  /** The query string of a provider request; `cnt` is only sent for a forecast. */
  datatype Query = Query(url: string, q: string, appid: string, units: string, lang: string, cnt: Option<int>)

  /** What the provider call produced. */
  datatype Fetch<P> = Fetched(payload: P) | Failed(error: FetchError)

  /** `process.env.OPENWEATHER_API_KEY || ''`: an unset variable reads as the empty key. */
  function ApiKeyFrom(env: Option<string>): (key: string)
    ensures key == "" <==> env == None || env == Some("")
    ensures env.Some? ==> key == env.value
  {
    if env.Some? then env.value else ""
  }

  /** A parameter the caller left out takes its default value. */
  function OrDefault<T>(v: Option<T>, default: T): (r: T)
    ensures v.Some? ==> r == v.value
    ensures v.None? ==> r == default
  {
    if v.Some? then v.value else default
  }

  class WeatherService {
    const apiKey: string
    const baseUrl: string
    /** The day key of a Unix time: the process time zone's calendar day. */
    const dayOf: int -> int

    constructor (apiKey: string, dayOf: int -> int)
      requires apiKey != ""
      ensures this.apiKey == apiKey && this.baseUrl == BaseUrl && this.dayOf == dayOf
    {
      this.apiKey := apiKey;
      this.baseUrl := BaseUrl;
      this.dayOf := dayOf;
    }

    /** The request for the current weather: location `city,country`, metric units, Japanese text. */
    function CurrentQuery(city: string, country: Option<string>): (r: Query)
      ensures r.url == baseUrl + "/weather" && r.appid == apiKey && r.cnt == None
      ensures r.q == city + "," + OrDefault(country, DefaultCountry)
      ensures r.units == "metric" && r.lang == "ja"
    {
      Query(baseUrl + "/weather", city + "," + OrDefault(country, DefaultCountry), apiKey, "metric", "ja", None)
    }

    /** The request for a forecast: as CurrentQuery, asking for eight samples per requested day. */
    function ForecastQuery(city: string, country: Option<string>, days: Option<int>): (r: Query)
      ensures r.url == baseUrl + "/forecast" && r.appid == apiKey
      ensures r.q == city + "," + OrDefault(country, DefaultCountry)
      ensures r.units == "metric" && r.lang == "ja"
      ensures r.cnt == Some(OrDefault(days, DefaultDays) * SamplesPerDay)
    {
      Query(baseUrl + "/forecast", city + "," + OrDefault(country, DefaultCountry), apiKey, "metric", "ja",
            Some(OrDefault(days, DefaultDays) * SamplesPerDay))
    }

    /**
     * getCurrentWeather: the normalised record when the provider answered,
     * otherwise the classified error. `clock` is the wall-clock time.
     */
    function GetCurrentWeather(city: string, country: Option<string>,
                               provider: Query -> Fetch<CurrentPayload>, clock: int): (r: Result<WeatherRecord, WeatherError>)
      ensures var fetched := provider(CurrentQuery(city, country));
              (fetched.Fetched? ==> r == Success(NormalizeCurrent(fetched.payload, clock))) &&
              (fetched.Failed? ==> r == Failure(Classify(fetched.error, city, CurrentRequest)))
    {
      match provider(CurrentQuery(city, country))
      case Fetched(payload) => Success(NormalizeCurrent(payload, clock))
      case Failed(error) => Failure(Classify(error, city, CurrentRequest))
    }

    /**
     * getWeatherForecast: the daily records when the provider answered,
     * otherwise the classified error. A success holds at most `days` records
     * (5 when not given), all stamped with the payload's city and country.
     */
    method GetWeatherForecast(city: string, country: Option<string>, days: Option<int>,
                              provider: Query -> Fetch<ForecastPayload>) returns (r: Result<seq<WeatherRecord>, WeatherError>)
      ensures var fetched := provider(ForecastQuery(city, country, days));
              (fetched.Fetched? ==> r == Success(ForecastOf(fetched.payload, OrDefault(days, DefaultDays), dayOf))) &&
              (fetched.Failed? ==> r == Failure(Classify(fetched.error, city, ForecastRequest)))
      ensures r.Success? && OrDefault(days, DefaultDays) >= 0 ==> |r.value| <= OrDefault(days, DefaultDays)
      ensures r.Success? ==> forall rec | rec in r.value ::
                rec.city == provider(ForecastQuery(city, country, days)).payload.city.name &&
                rec.country == provider(ForecastQuery(city, country, days)).payload.city.country
    {
      var n := OrDefault(days, DefaultDays);
      var fetched := provider(ForecastQuery(city, country, days));
      match fetched
      case Fetched(payload) =>
        var forecasts := AggregateForecast(payload, n, dayOf);
        ForecastLength(payload, n, dayOf);
        ForecastCity(payload, n, dayOf);
        r := Success(forecasts);
      case Failed(error) =>
        r := Failure(Classify(error, city, ForecastRequest));
    }
  }

  /**
   * `new WeatherService()`: reads the key from the environment and fails,
   * before any request, exactly when it is unset or empty.
   */
  method NewWeatherService(env: Option<string>, dayOf: int -> int) returns (r: Result<WeatherService, string>)
    ensures r.Failure? <==> env == None || env == Some("")
    ensures r.Failure? ==> r.error == MissingKeyMessage
    ensures r.Success? ==> fresh(r.value) && r.value.apiKey == env.value &&
                            r.value.baseUrl == BaseUrl && r.value.dayOf == dayOf
  {
    var key := ApiKeyFrom(env);
    if key == "" {
      r := Failure(MissingKeyMessage);
    } else {
      var service := new WeatherService(key, dayOf);
      r := Success(service);
    }
  }

  /** With neither country nor days given, the request is for `city,JP` and 40 samples. */
  lemma DefaultForecastRequest(service: WeatherService, city: string)
    ensures service.ForecastQuery(city, None, None).cnt == Some(40)
    ensures service.ForecastQuery(city, None, None).q == city + ",JP"
  {
  }
}
