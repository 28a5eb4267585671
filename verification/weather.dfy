/** One 3-hour forecast period, as the forecast provider's `list` entries carry it,
    and the per-period facts every analysis reads. */
module Weather {
  import opened Options

  /** Length of one forecast period in seconds (3 hours). */
  const PeriodSeconds: int := 10800

  /** Weather condition codes below this value denote active precipitation. */
  const PrecipitationCodeLimit: int := 600

  datatype Period = Period(
    dt: int,                 // Unix epoch of the period start
    windSpeed: real,         // m/s
    pop: Option<real>,       // probability of precipitation, may be absent
    weatherIds: seq<int>,    // condition codes
    temp: real,
    tempMin: real,
    tempMax: real,
    humidity: real)

  /** The forecast document: only its `list` key matters here. */
  datatype ForecastData = ForecastData(list: Option<seq<Period>>)

  /** The precipitation probability, 0 when the period has none. */
  function RainProb(p: Period): (r: real)
    ensures p.pop.None? ==> r == 0.0
    ensures p.pop.Some? ==> r == p.pop.value
  {
    p.pop.GetOr(0.0)
  }

  /** Some condition code of the period denotes active precipitation. */
  predicate IsRaining(p: Period) {
    exists k :: 0 <= k < |p.weatherIds| && p.weatherIds[k] < PrecipitationCodeLimit
  }
}
