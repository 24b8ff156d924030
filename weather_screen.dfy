/**
 * The computed parts of the weather details screen: which of its four
 * contents is shown, the condition icon, the hourly strip (first ten hours,
 * the first labelled "Now"), today's high and low, and the fixed details.
 * Temperatures are shown rounded half up.
 */
module WeatherScreen {
  import opened Wrappers
  import opened Text
  import opened Numbers
  import opened WeatherModel
  import WeatherAlerts
  import WeatherRepository
  import WeatherDto
  import WeatherPresentation

  const RainIconUrl: string := "https://cdn.weatherapi.com/weather/64x64/day/308.png"
  const CloudyIconUrl: string := "https://cdn.weatherapi.com/weather/64x64/day/116.png"
  const SunIconUrl: string := "https://cdn.weatherapi.com/weather/64x64/day/113.png"

  const RainWord: string := "rain"
  const CloudyWord: string := "cloudy"
  const SunWord: string := "sun"

  /** At most this many hours are shown. */
  const HourlyShown: nat := 10
  const NowLabel: string := "Now"

  const VisibilityKm: real := 10.0
  const PressureMb: int := 1013

  /** `getWeatherIconUrl`: rain first, then cloudy; "sun" and everything else share the sunny icon. */
  function WeatherIconUrl(condition: string): (url: string)
    ensures url == RainIconUrl || url == CloudyIconUrl || url == SunIconUrl
    ensures url == RainIconUrl <==> ContainsIgnoreCase(condition, RainWord)
    ensures url == CloudyIconUrl <==> !ContainsIgnoreCase(condition, RainWord) && ContainsIgnoreCase(condition, CloudyWord)
    ensures url == SunIconUrl <==> !ContainsIgnoreCase(condition, RainWord) && !ContainsIgnoreCase(condition, CloudyWord)
  {
    assert RainIconUrl[|RainIconUrl| - 7] != CloudyIconUrl[|CloudyIconUrl| - 7];
    assert RainIconUrl[|RainIconUrl| - 7] != SunIconUrl[|SunIconUrl| - 7];
    assert CloudyIconUrl[|CloudyIconUrl| - 5] != SunIconUrl[|SunIconUrl| - 5];
    if ContainsIgnoreCase(condition, RainWord) then RainIconUrl
    else if ContainsIgnoreCase(condition, CloudyWord) then CloudyIconUrl
    else if ContainsIgnoreCase(condition, SunWord) then SunIconUrl
    else SunIconUrl
  }

  /** The screen shows the rain icon exactly for the reports that raise the rain alert. */
  lemma RainIconMatchesRainAlert(weather: WeatherInfo)
    ensures WeatherIconUrl(weather.condition) == RainIconUrl
      <==> WeatherAlerts.WeatherNotification(weather) == Some(WeatherAlerts.RainAlert)
  {
    assert RainWord == WeatherAlerts.RainKeyword;
  }

  /** "Partly cloudy" has no 'i', so it is not rainy, and holds "cloudy" at index 7. */
  lemma PartlyCloudyIcon()
    ensures WeatherIconUrl("Partly cloudy") == CloudyIconUrl
  {
    AbsentLetterIgnoreCase("Partly cloudy", RainWord, 2);
    PresentIgnoreCase("Partly cloudy", CloudyWord, 7);
  }

  /** "Overcast" holds neither "rain" nor "cloudy", nor "sun", and still gets the sunny icon. */
  lemma OvercastIcon()
    ensures WeatherIconUrl("Overcast") == SunIconUrl
  {
    AbsentLetterIgnoreCase("Overcast", RainWord, 2);
    AbsentLetterIgnoreCase("Overcast", CloudyWord, 1);
  }

  /** One cell of the hourly strip. */
  datatype HourlyItem = HourlyItem(timeLabel: string, temperature: int, iconUrl: string)

  /** The cell for the hour at `index` of the list. */
  function HourlyCell(hour: HourlyWeather, index: nat): (item: HourlyItem)
    ensures item.timeLabel == if index == 0 then NowLabel else hour.time
    ensures item.temperature as real - 0.5 <= hour.temp < item.temperature as real + 0.5
    ensures item.iconUrl == WeatherIconUrl(hour.condition)
  {
    HourlyItem(if index == 0 then NowLabel else hour.time, RoundToInt(hour.temp), WeatherIconUrl(hour.condition))
  }

  /** The cells for `hourly[start..]`, numbered from `start`. */
  function HourlyCells(hourly: seq<HourlyWeather>, start: nat): (items: seq<HourlyItem>)
    requires start <= |hourly|
    ensures |items| == |hourly| - start
    ensures forall i :: 0 <= i < |items| ==> items[i] == HourlyCell(hourly[start + i], start + i)
    decreases |hourly| - start
  {
    if start == |hourly| then [] else [HourlyCell(hourly[start], start)] + HourlyCells(hourly, start + 1)
  }

  /** `itemsIndexed(hourlyForecasts.take(10))`: the first ten hours, the first one labelled "Now". */
  function HourlyStrip(hourly: seq<HourlyWeather>): (items: seq<HourlyItem>)
    ensures |items| == if |hourly| < HourlyShown then |hourly| else HourlyShown
    ensures forall i :: 0 <= i < |items| ==>
      && items[i].timeLabel == (if i == 0 then NowLabel else hourly[i].time)
      && items[i].temperature == RoundToInt(hourly[i].temp)
      && items[i].iconUrl == WeatherIconUrl(hourly[i].condition)
  {
    var shown := if |hourly| < HourlyShown then hourly else hourly[..HourlyShown];
    HourlyCells(shown, 0)
  }

  /**
   * Through the repository and the screen: every hour after the first that is
   * shown is labelled with the last five characters of its forecast timestamp.
   */
  lemma HourlyLabelsFromResponse(response: WeatherDto.WeatherResponseDto, i: nat)
    requires 0 < i < |HourlyStrip(WeatherRepository.ToWeatherInfo(response).hourly)|
    ensures response.forecast.forecastday != [] && i < |response.forecast.forecastday[0].hour|
    ensures HourlyStrip(WeatherRepository.ToWeatherInfo(response).hourly)[i].timeLabel
      == TakeLast(response.forecast.forecastday[0].hour[i].time, 5)
  {
    var info := WeatherRepository.ToWeatherInfo(response);
    assert i < |info.hourly|;
  }

  /** `H:… L:…`: today's rounded high and low, from the first daily entry, or 0 and 0 without one. */
  function TodayHighLow(daily: seq<DailyWeather>): (highLow: (int, int))
    ensures daily == [] ==> highLow == (0, 0)
    ensures daily != [] ==> highLow.0 as real - 0.5 <= daily[0].maxTemp < highLow.0 as real + 0.5
    ensures daily != [] ==> highLow.1 as real - 0.5 <= daily[0].minTemp < highLow.1 as real + 0.5
  {
    if daily == [] then (0, 0)
    else (RoundToInt(daily[0].maxTemp), RoundToInt(daily[0].minTemp))
  }

  /** The details card: wind and humidity from the report, visibility and pressure fixed. */
  datatype Details = Details(windKph: int, humidity: int, visibilityKm: int, pressureMb: int)

  function DetailsFor(weather: WeatherInfo): (details: Details)
    ensures details.visibilityKm == 10 && details.pressureMb == 1013
    ensures details.humidity == weather.humidity
    ensures details.windKph as real - 0.5 <= weather.windKph < details.windKph as real + 0.5
  {
    Details(RoundToInt(weather.windKph), weather.humidity, RoundToInt(VisibilityKm), PressureMb)
  }

  /** What the screen's body shows. */
  datatype Content = Spinner | ErrorText(message: string) | Forecast(weather: WeatherInfo) | Waiting

  /** The screen's `when`: loading wins over an error, an error over data, and without data it waits. */
  function ScreenContent(state: WeatherPresentation.WeatherState): (content: Content)
    ensures content.Spinner? <==> state.isLoading
    ensures content.ErrorText? <==> !state.isLoading && state.error.Some?
    ensures content.ErrorText? ==> content.message == state.error.value
    ensures content.Forecast? <==> !state.isLoading && state.error.None? && state.data.Some?
    ensures content.Forecast? ==> content.weather == state.data.value
  {
    if state.isLoading then Spinner
    else if state.error.Some? then ErrorText(state.error.value)
    else if state.data.Some? then Forecast(state.data.value)
    else Waiting
  }
}
