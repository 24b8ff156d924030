/**
 * Domain records of the weather feature (`WeatherInfo`, `HourlyWeather`,
 * `DailyWeather`, `PopularCitySummary`) and the shapes in which the model
 * receives results of calls it cannot see: a repository call either returns
 * a value or throws an exception whose message may be null.
 */
module WeatherModel {
  import opened Wrappers

  datatype HourlyWeather = HourlyWeather(time: string, temp: real, condition: string)

  datatype DailyWeather = DailyWeather(date: string, minTemp: real, maxTemp: real, condition: string)

  datatype WeatherInfo = WeatherInfo(
    cityName: string,
    currentTemp: real,
    condition: string,
    humidity: int,
    windKph: real,
    hourly: seq<HourlyWeather>,
    daily: seq<DailyWeather>)

  datatype PopularCitySummary = PopularCitySummary(name: string, country: string, temperature: string)

  /** The outcome of a suspending call: a value, or an exception with its (nullable) message. */
  datatype Fetch<T> = Returned(value: T) | Threw(message: Option<string>)

  /** The two ways the repository is asked for weather. */
  datatype Query = ByCity(city: string) | ByCoordinates(latitude: real, longitude: real)
}
