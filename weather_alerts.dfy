/**
 * The weather-alert rule of `SendWeatherNotificationUseCase`: rain first,
 * then heat above 35 degrees, then cold below 5 degrees; at most one
 * notification, each with its fixed title and message. Delivering the
 * notification is an effect outside the model: the rule returns the
 * notification it would show, or nothing.
 */
module WeatherAlerts {
  import opened Wrappers
  import opened Text
  import opened WeatherModel

  datatype Notification = Notification(title: string, message: string)

  const RainKeyword: string := "rain"
  const HotAbove: real := 35.0
  const ColdBelow: real := 5.0

  const RainAlert: Notification := Notification("🌧 Chance of rain", "Carry an umbrella today!")
  const HotAlert: Notification := Notification("🔥 It's hot outside", "Drink plenty of water and stay cool!")
  const ColdAlert: Notification := Notification("❄️ Very cold weather", "Wear warm clothes today!")

  /** `condition.contains("rain", ignoreCase = true)`. */
  predicate IsRainy(condition: string) {
    ContainsIgnoreCase(condition, RainKeyword)
  }

  /** The three alerts are told apart by their titles. */
  lemma AlertsDistinct()
    ensures RainAlert.title != HotAlert.title && HotAlert.title != ColdAlert.title && RainAlert.title != ColdAlert.title
  {
    assert RainAlert.title[0] != HotAlert.title[0];
    assert HotAlert.title[0] != ColdAlert.title[0];
    assert RainAlert.title[0] != ColdAlert.title[0];
  }

  /** `SendWeatherNotificationUseCase.invoke`: the notification shown for `weather`, if any. */
  function WeatherNotification(weather: WeatherInfo): (alert: Option<Notification>)
    ensures alert.Some? ==> alert.value == RainAlert || alert.value == HotAlert || alert.value == ColdAlert
    ensures alert == Some(RainAlert) <==> IsRainy(weather.condition)
    ensures alert == Some(HotAlert) <==> !IsRainy(weather.condition) && weather.currentTemp > HotAbove
    ensures alert == Some(ColdAlert) <==> !IsRainy(weather.condition) && weather.currentTemp < ColdBelow
    ensures alert.None? <==> !IsRainy(weather.condition) && ColdBelow <= weather.currentTemp <= HotAbove
  {
    AlertsDistinct();
    if IsRainy(weather.condition) then Some(RainAlert)
    else if weather.currentTemp > HotAbove then Some(HotAlert)
    else if weather.currentTemp < ColdBelow then Some(ColdAlert)
    else None
  }

  /** "Light RAIN" is rainy in any letter case, so even at 40 degrees the rain alert is shown. */
  lemma HeavyRainOnHotDay(weather: WeatherInfo)
    requires weather.condition == "Light RAIN" && weather.currentTemp == 40.0
    ensures WeatherNotification(weather) == Some(RainAlert)
  {
    PresentIgnoreCase(weather.condition, RainKeyword, 6);
  }

  /** "Sunny" holds no "r", so exactly 35 and exactly 5 degrees bring no alert. */
  lemma SunnyBoundariesAreQuiet(weather: WeatherInfo)
    requires weather.condition == "Sunny"
    requires weather.currentTemp == 35.0 || weather.currentTemp == 5.0
    ensures WeatherNotification(weather).None?
  {
    AbsentLetterIgnoreCase(weather.condition, RainKeyword, 0);
  }
}
