/** The app's navigation routes and the weather route built for a city. */
module Navigation {
  import opened Wrappers
  import opened Text

  datatype Screen = Login | Register | Location | Weather | Splash

  const WeatherPrefix: string := "weather/"

  /** Each screen's route; the weather route holds the `{city}` argument placeholder. */
  function Route(screen: Screen): (route: string)
    ensures StartsWith(route, WeatherPrefix) <==> screen == Weather
    ensures screen != Weather ==> forall k :: 0 <= k < |route| ==> 'a' <= route[k] <= 'z'
  {
    var route := match screen
      case Login => "login"
      case Register => "register"
      case Location => "location"
      case Weather => "weather/{city}"
      case Splash => "splash";
    assert StartsWith(route, WeatherPrefix) ==> route[..|WeatherPrefix|][0] == 'w';
    route
  }

  /** `Screen.Weather.createRoute(city)`. */
  function CreateWeatherRoute(city: string): (route: string)
    ensures StartsWith(route, WeatherPrefix)
    ensures |route| == |WeatherPrefix| + |city|
    ensures route[|WeatherPrefix|..] == city
  {
    WeatherPrefix + city
  }

  /** The city argument a weather route carries, when the route is one. */
  function CityFromRoute(route: string): (city: Option<string>)
    ensures city.Some? <==> StartsWith(route, WeatherPrefix)
    ensures city.Some? ==> WeatherPrefix + city.value == route
  {
    if StartsWith(route, WeatherPrefix) then Some(route[|WeatherPrefix|..]) else None
  }

  /** Reading the city back from its route gives the city, and every weather route is built that way. */
  lemma WeatherRouteRoundTrip(city: string, route: string)
    ensures CityFromRoute(CreateWeatherRoute(city)) == Some(city)
    ensures CityFromRoute(route).Some? ==> CreateWeatherRoute(CityFromRoute(route).value) == route
  {
    assert CreateWeatherRoute(city)[..|WeatherPrefix|] == WeatherPrefix;
  }

  /** The five routes are pairwise distinct. */
  lemma RoutesDistinct(a: Screen, b: Screen)
    requires a != b
    ensures Route(a) != Route(b)
  {
    // told apart by their first letter, or else ("login", "location") by their length
    assert |Route(a)| != |Route(b)| || Route(a)[0] != Route(b)[0];
  }

  /** No city makes the weather route collide with another screen's route. */
  lemma WeatherRouteIsNoOtherScreen(city: string, screen: Screen)
    requires screen != Weather
    ensures CreateWeatherRoute(city) != Route(screen)
  {
    assert CreateWeatherRoute(city)[0] == 'w';
  }

  /** Building the route for the placeholder itself gives the weather route pattern. */
  lemma PlaceholderGivesPattern()
    ensures CreateWeatherRoute("{city}") == Route(Weather)
  {
  }
}
