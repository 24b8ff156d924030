/**
 * The weather repository: city search results become "name, country" labels,
 * and a forecast response becomes a `WeatherInfo`. The HTTP call itself is
 * outside the model; the repository's request and the response are values.
 */
module WeatherRepository {
  import opened Text
  import opened WeatherDto
  import opened WeatherModel

  /** The forecast is always asked for this many days. */
  const ForecastDays: nat := 7

  /** Number of characters of an hourly timestamp ("yyyy-MM-dd HH:mm") that are kept. */
  const HourLabelLength: nat := 5

  datatype ForecastRequest = ForecastRequest(query: string, days: nat)

  /** The request `getWeatherByCity(city)` sends. */
  function WeatherRequest(city: string): (req: ForecastRequest)
    ensures req.query == city && req.days == 7
  {
    ForecastRequest(city, ForecastDays)
  }

  /** The label `getCities` makes of one search hit; the region is not used. */
  function CityLabel(hit: CitySearchDto): (text: string)
    ensures |text| == |hit.name| + 2 + |hit.country|
    ensures text[..|hit.name|] == hit.name
    ensures text[|hit.name|..|hit.name| + 2] == ", "
    ensures text[|hit.name| + 2..] == hit.country
  {
    hit.name + ", " + hit.country
  }

  /** `getCities`: one label per search hit, in the same order. */
  function GetCities(hits: seq<CitySearchDto>): (labels: seq<string>)
    ensures |labels| == |hits|
    ensures forall i :: 0 <= i < |hits| ==>
      labels[i] == hits[i].name + ", " + hits[i].country
  {
    if hits == [] then [] else [CityLabel(hits[0])] + GetCities(hits[1..])
  }

  /** Search hits that differ only in their regions give the same labels. */
  lemma {:induction false} GetCitiesIgnoresRegion(hits: seq<CitySearchDto>, others: seq<CitySearchDto>)
    requires |hits| == |others|
    requires forall i :: 0 <= i < |hits| ==>
      hits[i].name == others[i].name && hits[i].country == others[i].country
    ensures GetCities(hits) == GetCities(others)
  {
    if hits != [] {
      GetCitiesIgnoresRegion(hits[1..], others[1..]);
    }
  }

  function ToHourly(hours: seq<HourDto>): (hourly: seq<HourlyWeather>)
    ensures |hourly| == |hours|
    ensures forall i :: 0 <= i < |hours| ==>
      && hourly[i].time == TakeLast(hours[i].time, HourLabelLength)
      && hourly[i].temp == hours[i].tempC
      && hourly[i].condition == hours[i].condition.text
  {
    if hours == [] then []
    else [HourlyWeather(TakeLast(hours[0].time, HourLabelLength), hours[0].tempC, hours[0].condition.text)]
         + ToHourly(hours[1..])
  }

  function ToDaily(days: seq<ForecastDayDto>): (daily: seq<DailyWeather>)
    ensures |daily| == |days|
    ensures forall i :: 0 <= i < |days| ==>
      && daily[i].date == days[i].date
      && daily[i].minTemp == days[i].day.mintempC
      && daily[i].maxTemp == days[i].day.maxtempC
      && daily[i].condition == days[i].day.condition.text
  {
    if days == [] then []
    else [DailyWeather(days[0].date, days[0].day.mintempC, days[0].day.maxtempC, days[0].day.condition.text)]
         + ToDaily(days[1..])
  }

  /** The `WeatherInfo` that `getWeatherByCity` builds from a forecast response. */
  function ToWeatherInfo(response: WeatherResponseDto): (info: WeatherInfo)
    ensures info.cityName == response.location.name
    ensures info.currentTemp == response.current.tempC
    ensures info.condition == response.current.condition.text
    ensures info.humidity == response.current.humidity
    ensures info.windKph == response.current.windKph
    ensures info.daily == ToDaily(response.forecast.forecastday)
    ensures response.forecast.forecastday == [] ==> info.hourly == []
    ensures response.forecast.forecastday != [] ==>
      info.hourly == ToHourly(response.forecast.forecastday[0].hour)
  {
    var days := response.forecast.forecastday;
    WeatherInfo(
      response.location.name,
      response.current.tempC,
      response.current.condition.text,
      response.current.humidity,
      response.current.windKph,
      if days == [] then [] else ToHourly(days[0].hour),
      ToDaily(days))
  }
}
