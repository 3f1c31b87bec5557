/**
 * The provider's raw payloads and the service's normalised record
 * (WeatherData in the service).
 */
module WeatherData {
  import opened Wrappers
  import opened JsMath

  /** One 3-hourly entry of the forecast payload's `list`. */
  datatype Sample = Sample(
    dt: int,                   // Unix time in seconds
    temp: real,                // main.temp, degrees C
    feelsLike: real,           // main.feels_like, degrees C
    humidity: int,             // main.humidity, percent
    pressure: int,             // main.pressure, hPa
    windSpeed: real,           // wind.speed, m/s
    description: string,       // weather[0].description
    visibility: Option<real>)  // visibility in metres; the provider may omit it

  /** The forecast payload's `city` block. */
  datatype CityInfo = CityInfo(name: string, country: string)

  /** The forecast payload: the samples in the order received, and the resolved location. */
  datatype ForecastPayload = ForecastPayload(list: seq<Sample>, city: CityInfo)

  /** The current-weather payload. */
  datatype CurrentPayload = CurrentPayload(
    temp: real,
    feelsLike: real,
    humidity: int,
    pressure: int,
    windSpeed: real,
    description: string,
    visibility: real,          // metres
    name: string,              // provider-resolved city name
    country: string)           // sys.country

  /**
   * When a record is about: the moment of retrieval (current weather, read
   * from a clock the caller supplies) or the start of a day key (forecast).
   */
  datatype Stamp = RetrievedAt(clock: int) | StartOfDay(day: int)

  /** The normalised record the service returns. */
  datatype WeatherRecord = WeatherRecord(
    temperature: int,
    feelsLike: int,
    humidity: int,
    windSpeed: real,           // m/s, one decimal
    description: string,
    visibility: real,          // km, one decimal
    pressure: int,
    city: string,
    country: string,
    timestamp: Stamp)

  /** Metres to kilometres, rounded to one decimal place. */
  function VisibilityKm(metres: real): (km: real)
    ensures OneDecimal(km)
    ensures metres / 1000.0 - 0.05 < km <= metres / 1000.0 + 0.05
  {
    RoundTenth(metres / 1000.0)
  }

  /** The visibility used when a forecast sample's own is missing or zero. */
  const DefaultVisibility: real := 10000.0

  /** `visibility || 10000`: a missing or zero visibility is replaced by the default. */
  function VisibilityOrDefault(v: Option<real>): (metres: real)
    ensures metres == DefaultVisibility <==> v == None || v == Some(0.0) || v == Some(DefaultVisibility)
    ensures v.Some? && v.value != 0.0 ==> metres == v.value
  {
    match v
    case None => DefaultVisibility
    case Some(m) => if m == 0.0 then DefaultVisibility else m
  }
}
