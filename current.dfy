/** Normalisation of the current-weather payload (getCurrentWeather's success path). */
module Current {
  import opened JsMath
  import opened WeatherData

  /**
   * The record built from a current-weather payload. `clock` is the wall-clock
   * time at which the record is built.
   */
  function NormalizeCurrent(p: CurrentPayload, clock: int): (r: WeatherRecord)
    ensures p.temp - 0.5 < r.temperature as real <= p.temp + 0.5
    ensures p.feelsLike - 0.5 < r.feelsLike as real <= p.feelsLike + 0.5
    ensures OneDecimal(r.windSpeed) && p.windSpeed - 0.05 < r.windSpeed <= p.windSpeed + 0.05
    ensures OneDecimal(r.visibility)
    ensures p.visibility / 1000.0 - 0.05 < r.visibility <= p.visibility / 1000.0 + 0.05
    ensures r.humidity == p.humidity && r.pressure == p.pressure
    ensures r.description == p.description
    ensures r.city == p.name && r.country == p.country
    ensures r.timestamp == RetrievedAt(clock)
  {
    WeatherRecord(
      temperature := Round(p.temp),
      feelsLike := Round(p.feelsLike),
      humidity := p.humidity,
      windSpeed := RoundTenth(p.windSpeed),
      description := p.description,
      visibility := VisibilityKm(p.visibility),
      pressure := p.pressure,
      city := p.name,
      country := p.country,
      timestamp := RetrievedAt(clock))
  }

  /**
   * The service's own worked example: 20.5 C -> 21, feels-like 22.1 -> 22,
   * wind 3.2 m/s -> 3.2, visibility 10000 m -> 10 km, humidity and pressure unchanged.
   */
  lemma NormalizeCurrentExample(clock: int)
    ensures var r := NormalizeCurrent(CurrentPayload(20.5, 22.1, 65, 1013, 3.2, "曇り", 10000.0, "Tokyo", "JP"), clock);
            r == WeatherRecord(21, 22, 65, 3.2, "曇り", 10.0, 1013, "Tokyo", "JP", RetrievedAt(clock))
  {
  }
}
