/**
 * How a failed provider call is turned into the error the service throws.
 * Both getCurrentWeather and getWeatherForecast use the same rule; only the
 * wording of the generic failure differs between them.
 */
module Errors {
  import opened Wrappers

  /** What the provider call can throw. */
  datatype FetchError =
    | AxiosError(status: Option<int>, message: string)  // an HTTP client error; status is absent when no response came back
    | OtherError(errorMessage: Option<string>)          // anything else; absent when what was thrown is not an Error

  /** Which of the two operations failed. */
  datatype Request = CurrentRequest | ForecastRequest

  /** The classified failure. */
  datatype WeatherError =
    | CityNotFound(city: string)
    | InvalidApiKey
    | FetchFailed(request: Request, detail: string)
    | Unexpected(detail: string)

  const UnknownError: string := "不明なエラー"

  function Classify(e: FetchError, city: string, request: Request): (r: WeatherError)
    ensures r.CityNotFound? <==> e.AxiosError? && e.status == Some(404)
    ensures r.InvalidApiKey? <==> e.AxiosError? && e.status == Some(401)
    ensures r.FetchFailed? <==> e.AxiosError? && e.status != Some(404) && e.status != Some(401)
    ensures r.Unexpected? <==> e.OtherError?
    ensures r.CityNotFound? ==> r.city == city
    ensures r.FetchFailed? ==> r.request == request && r.detail == e.message
    ensures r.Unexpected? ==> r.detail == if e.errorMessage.Some? then e.errorMessage.value else UnknownError
  {
    match e
    case AxiosError(status, message) =>
      if status == Some(404) then CityNotFound(city)
      else if status == Some(401) then InvalidApiKey
      else FetchFailed(request, message)
    case OtherError(errorMessage) =>
      Unexpected(if errorMessage.Some? then errorMessage.value else UnknownError)
  }

  const CityPrefix: string := "都市 \""
  const CitySuffix: string := "\" が見つかりませんでした"
  const InvalidApiKeyText: string := "APIキーが無効です"
  const CurrentFailedPrefix: string := "天気情報の取得に失敗しました: "
  const ForecastFailedPrefix: string := "天気予報の取得に失敗しました: "
  const UnexpectedPrefix: string := "予期しないエラーが発生しました: "

  /**
   * The message of the thrown error: the fixed wording of its kind, with the
   * caller's city or the underlying error's detail placed where it can be read
   * back.
   */
  function Message(err: WeatherError): (m: string)
    ensures err.CityNotFound? ==>
              CityPrefix <= m && |m| == |CityPrefix| + |err.city| + |CitySuffix| &&
              m[|CityPrefix|..|CityPrefix| + |err.city|] == err.city &&
              m[|CityPrefix| + |err.city|..] == CitySuffix
    ensures err.InvalidApiKey? ==> m == InvalidApiKeyText
    ensures err.FetchFailed? && err.request == CurrentRequest ==>
              CurrentFailedPrefix <= m && m[|CurrentFailedPrefix|..] == err.detail
    ensures err.FetchFailed? && err.request == ForecastRequest ==>
              ForecastFailedPrefix <= m && m[|ForecastFailedPrefix|..] == err.detail
    ensures err.Unexpected? ==> UnexpectedPrefix <= m && m[|UnexpectedPrefix|..] == err.detail
  {
    match err
    case CityNotFound(city) =>
      var m := CityPrefix + city + CitySuffix;
      assert m[|CityPrefix|..|CityPrefix| + |city|] == city;
      assert m[|CityPrefix| + |city|..] == CitySuffix;
      m
    case InvalidApiKey => InvalidApiKeyText
    case FetchFailed(CurrentRequest, detail) => CurrentFailedPrefix + detail
    case FetchFailed(ForecastRequest, detail) => ForecastFailedPrefix + detail
    case Unexpected(detail) => UnexpectedPrefix + detail
  }

  /** The first character of a message tells the kind of error (and, for a generic failure, the operation). */
  lemma MessageHead(err: WeatherError)
    ensures |Message(err)| > 2
    ensures Message(err)[0] == match err
      case CityNotFound(_) => '都'
      case InvalidApiKey => 'A'
      case FetchFailed(_, _) => '天'
      case Unexpected(_) => '予'
    ensures err.FetchFailed? ==> Message(err)[2] == if err.request == CurrentRequest then '情' else '予'
  {
  }

  /**
   * Different errors are thrown with different messages: the message alone
   * tells the kind, the operation and the city or detail it carries.
   */
  lemma MessageInjective(e1: WeatherError, e2: WeatherError)
    requires Message(e1) == Message(e2)
    ensures e1 == e2
  {
    MessageHead(e1);
    MessageHead(e2);
    if e1.CityNotFound? {
      assert |e1.city| == |e2.city|;
    }
  }
}
