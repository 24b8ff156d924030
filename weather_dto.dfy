/** The JSON records of the weather API, as the client deserialises them. */
module WeatherDto {

  datatype CitySearchDto = CitySearchDto(name: string, region: string, country: string)

  datatype ConditionDto = ConditionDto(text: string)

  datatype LocationDto = LocationDto(name: string)

  datatype CurrentDto = CurrentDto(tempC: real, condition: ConditionDto, windKph: real, humidity: int)

  datatype DayDto = DayDto(maxtempC: real, mintempC: real, condition: ConditionDto)

  datatype HourDto = HourDto(time: string, tempC: real, condition: ConditionDto)

  datatype ForecastDayDto = ForecastDayDto(date: string, day: DayDto, hour: seq<HourDto>)

  datatype ForecastDto = ForecastDto(forecastday: seq<ForecastDayDto>)

  datatype WeatherResponseDto = WeatherResponseDto(location: LocationDto, current: CurrentDto, forecast: ForecastDto)
}
