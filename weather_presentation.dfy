/**
 * `WeatherViewModel`: the weather screen's state holder. Each handler that
 * launches a coroutine is split into the step that runs at once and a
 * `Complete…` step that runs when the repository answers, with the answer as
 * a parameter. The one-shot event channel is an append-only list.
 */
module WeatherPresentation {
  import opened Wrappers
  import opened WeatherModel

  datatype WeatherState = WeatherState(data: Option<WeatherInfo>, isLoading: bool, error: Option<string>)

  datatype WeatherEvent = NavigateToWeatherDetail

  datatype WeatherIntent = LoadWeather(city: string) | LoadWeatherByLocation(latitude: real, longitude: real)

  /** The view model's own copy of a popular-city summary. */
  datatype PopularCity = PopularCity(name: string, country: string, temperature: string)

  const InitialWeatherState: WeatherState := WeatherState(None, false, None)

  const InitialRecentSearches: seq<string> := ["San Francisco", "Los Angeles", "Chicago"]

  const ErrorLoadingWeather: string := "Error loading weather"

  /** Search is only started from this many characters on. */
  const MinQueryLength: nat := 2

  /** The repository request a load intent leads to. */
  function RequestFor(intent: WeatherIntent): (q: Query)
    ensures intent.LoadWeather? ==> q == ByCity(intent.city)
    ensures intent.LoadWeatherByLocation? ==> q == ByCoordinates(intent.latitude, intent.longitude)
  {
    match intent
    case LoadWeather(city) => ByCity(city)
    case LoadWeatherByLocation(latitude, longitude) => ByCoordinates(latitude, longitude)
  }

  /** The state after a load whose call threw: loading stops, the message (or a default) is shown, the data stays. */
  function FailedLoad(s: WeatherState, message: Option<string>): (t: WeatherState)
    ensures t.data == s.data && !t.isLoading && t.error.Some?
    ensures t.error.value == if message.Some? then message.value else ErrorLoadingWeather
  {
    s.(isLoading := false, error := Some(message.GetOr(ErrorLoadingWeather)))
  }

  /** `domainResults.map { PopularCity(it.name, it.country, it.temperature) }`. */
  function ToPopularCities(summaries: seq<PopularCitySummary>): (cities: seq<PopularCity>)
    ensures |cities| == |summaries|
    ensures forall i :: 0 <= i < |summaries| ==>
      cities[i] == PopularCity(summaries[i].name, summaries[i].country, summaries[i].temperature)
  {
    if summaries == [] then []
    else [PopularCity(summaries[0].name, summaries[0].country, summaries[0].temperature)] + ToPopularCities(summaries[1..])
  }

  class WeatherViewModel {
    var state: WeatherState
    var cities: seq<string>
    const recentSearches: seq<string>
    var popularCities: seq<PopularCity>
    var events: seq<WeatherEvent>

    /** A fresh view model; its `init` block launches the popular-cities load, completed by `CompleteLoadPopularCities`. */
    constructor()
      ensures state == InitialWeatherState
      ensures cities == [] && popularCities == [] && events == []
      ensures recentSearches == InitialRecentSearches
    {
      state := InitialWeatherState;
      cities := [];
      recentSearches := InitialRecentSearches;
      popularCities := [];
      events := [];
    }

    /** `handleIntent`: both loads first show the spinner and clear the error, then ask the repository. */
    method HandleIntent(intent: WeatherIntent) returns (request: Query)
      modifies this`state
      ensures state == old(state).(isLoading := true, error := None)
      ensures request == RequestFor(intent)
    {
      state := state.(isLoading := true, error := None);
      request := RequestFor(intent);
    }

    /** The end of `loadWeatherByCity`: the answer, possibly null, becomes the data; no event is sent. */
    method CompleteLoadWeatherByCity(outcome: Fetch<Option<WeatherInfo>>)
      modifies this`state
      ensures outcome.Returned? ==> state == old(state).(isLoading := false, data := outcome.value)
      ensures outcome.Threw? ==> state == FailedLoad(old(state), outcome.message)
    {
      match outcome
      case Returned(info) => state := state.(isLoading := false, data := info);
      case Threw(message) => state := FailedLoad(state, message);
    }

    /** The end of `loadWeatherByLocation`: like the city load, and a call that did not throw also asks to open the details. */
    method CompleteLoadWeatherByLocation(outcome: Fetch<Option<WeatherInfo>>)
      modifies this`state, this`events
      ensures outcome.Returned? ==> state == old(state).(isLoading := false, data := outcome.value)
      ensures outcome.Threw? ==> state == FailedLoad(old(state), outcome.message)
      ensures events == old(events) + if outcome.Returned? then [NavigateToWeatherDetail] else []
    {
      match outcome
      case Returned(info) =>
        state := state.(isLoading := false, data := info);
        events := events + [NavigateToWeatherDetail];
      case Threw(message) =>
        state := FailedLoad(state, message);
    }

    /** The end of `loadPopularCitiesWeather`: the summaries are copied in order, or the list is emptied. */
    method CompleteLoadPopularCities(outcome: Fetch<seq<PopularCitySummary>>)
      modifies this`popularCities
      ensures outcome.Returned? ==> popularCities == ToPopularCities(outcome.value)
      ensures outcome.Threw? ==> popularCities == []
    {
      match outcome
      case Returned(summaries) => popularCities := ToPopularCities(summaries);
      case Threw(_) => popularCities := [];
    }

    /** `loadCities`: a query shorter than two characters empties the list and asks nothing; otherwise a search starts. */
    method LoadCities(query: string) returns (search: Option<string>)
      modifies this`cities
      ensures search.Some? <==> |query| >= MinQueryLength
      ensures search.Some? ==> search.value == query
      ensures search.None? ==> cities == []
      ensures search.Some? ==> cities == old(cities)
    {
      if |query| < MinQueryLength {
        cities := [];
        return None;
      }
      return Some(query);
    }

    /** The end of the search: its labels replace the list, or an exception empties it. */
    method CompleteLoadCities(outcome: Fetch<seq<string>>)
      modifies this`cities
      ensures cities == if outcome.Returned? then outcome.value else []
    {
      cities := if outcome.Returned? then outcome.value else [];
    }
  }
}
