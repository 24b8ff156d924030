/**
 * `WeatherWorker`: the periodic background job. It checks the notification
 * permission, finds the user's weather (by coordinates, falling back to
 * Cairo), and shows at most one alert. The location service and the
 * repository are inputs: the last known location as it was read, and the
 * outcomes of the first and second repository calls of one run, in call
 * order. Shown notifications are returned as a trace.
 */
module WeatherWorker {
  import opened Wrappers
  import opened WeatherModel
  import opened WeatherAlerts

  /** Android 13 (`Build.VERSION_CODES.TIRAMISU`), from which posting notifications needs a permission. */
  const Tiramisu: int := 33

  const FallbackCity: string := "Cairo"

  /** The worker's own hot-weather alert: same title as the use case, shorter message. */
  const WorkerHotAlert: Notification := Notification("🔥 It's hot outside", "Drink water and stay cool!")

  /** What awaiting the fused location client's last location produced. */
  datatype LocationReading = Located(latitude: real, longitude: real) | NoLastLocation | LocationThrew

  datatype WorkOutcome = Success | Retry | Failure

  /** The repository calls one `getUserWeather` made, in order, and what it finally produced. */
  datatype UserWeather = UserWeather(queries: seq<Query>, outcome: Fetch<Option<WeatherInfo>>)

  /** One run of `doWork`: its outcome, the repository calls made and the notifications shown. */
  datatype WorkerRun = WorkerRun(outcome: WorkOutcome, queries: seq<Query>, notifications: seq<Notification>)

  /**
   * `getUserWeather`: ask by coordinates when a location is known, by "Cairo"
   * otherwise; any exception inside the `try` (reading the location, or the
   * first repository call) leads to one more call for "Cairo", whose own
   * exception escapes.
   */
  function GetUserWeather(
    location: LocationReading,
    firstCall: Fetch<Option<WeatherInfo>>,
    secondCall: Fetch<Option<WeatherInfo>>): (run: UserWeather)
    ensures 1 <= |run.queries| <= 2
    ensures run.queries[0] ==
      if location.Located? then ByCoordinates(location.latitude, location.longitude) else ByCity(FallbackCity)
    ensures |run.queries| == 2 <==> !location.LocationThrew? && firstCall.Threw?
    ensures |run.queries| == 2 ==> run.queries[1] == ByCity(FallbackCity) && run.outcome == secondCall
    ensures |run.queries| == 1 ==> run.outcome == firstCall
    ensures forall q :: q in run.queries && q.ByCity? ==> q.city == FallbackCity
  {
    match location
    case LocationThrew => UserWeather([ByCity(FallbackCity)], firstCall)
    case Located(latitude, longitude) => AskThenCairo(ByCoordinates(latitude, longitude), firstCall, secondCall)
    case NoLastLocation => AskThenCairo(ByCity(FallbackCity), firstCall, secondCall)
  }

  /** The `try` body's repository call, and the `catch` call for "Cairo" when it throws. */
  function AskThenCairo(first: Query, firstCall: Fetch<Option<WeatherInfo>>, secondCall: Fetch<Option<WeatherInfo>>): UserWeather {
    if firstCall.Threw? then UserWeather([first, ByCity(FallbackCity)], secondCall)
    else UserWeather([first], firstCall)
  }

  /** The worker's copy of the alert rule: the use case's priorities, with its own hot message. */
  function WorkerAlert(weather: WeatherInfo): (alert: Option<Notification>)
    ensures alert.Some? ==> alert.value == RainAlert || alert.value == WorkerHotAlert || alert.value == ColdAlert
  {
    if IsRainy(weather.condition) then Some(RainAlert)
    else if weather.currentTemp > HotAbove then Some(WorkerHotAlert)
    else if weather.currentTemp < ColdBelow then Some(ColdAlert)
    else None
  }

  /** Whether the worker may go on: below Android 13 no permission is needed. */
  function MayNotify(sdkInt: int, permissionGranted: bool): (may: bool)
    ensures sdkInt < Tiramisu ==> may
    ensures sdkInt >= Tiramisu ==> (may <==> permissionGranted)
  {
    sdkInt < Tiramisu || permissionGranted
  }

  /** `doWork`. */
  function DoWork(
    sdkInt: int,
    permissionGranted: bool,
    location: LocationReading,
    firstCall: Fetch<Option<WeatherInfo>>,
    secondCall: Fetch<Option<WeatherInfo>>): (run: WorkerRun)
    ensures !MayNotify(sdkInt, permissionGranted) ==> run == WorkerRun(Success, [], [])
    ensures MayNotify(sdkInt, permissionGranted) ==>
      run.queries == GetUserWeather(location, firstCall, secondCall).queries
    ensures |run.notifications| <= 1
    ensures run.outcome == Failure <==>
      MayNotify(sdkInt, permissionGranted) && GetUserWeather(location, firstCall, secondCall).outcome.Threw?
    ensures run.outcome == Retry <==>
      MayNotify(sdkInt, permissionGranted) && GetUserWeather(location, firstCall, secondCall).outcome == Returned(None)
    ensures run.outcome != Success ==> run.notifications == []
    ensures run.outcome == Success && MayNotify(sdkInt, permissionGranted) ==>
      var fetched := GetUserWeather(location, firstCall, secondCall).outcome;
      fetched.Returned? && fetched.value.Some? &&
      run.notifications == match WorkerAlert(fetched.value.value) { case Some(n) => [n] case None => [] }
  {
    if !MayNotify(sdkInt, permissionGranted) then WorkerRun(Success, [], [])
    else
      var fetched := GetUserWeather(location, firstCall, secondCall);
      match fetched.outcome
      case Threw(_) => WorkerRun(Failure, fetched.queries, [])
      case Returned(None) => WorkerRun(Retry, fetched.queries, [])
      case Returned(Some(weather)) =>
        var shown := match WorkerAlert(weather) { case Some(n) => [n] case None => [] };
        WorkerRun(Success, fetched.queries, shown)
  }

  /**
   * The worker and the use case make the same decision for every report; the
   * notification differs only in the hot alert's message.
   */
  lemma WorkerAgreesWithUseCase(weather: WeatherInfo)
    ensures WorkerAlert(weather).Some? <==> WeatherNotification(weather).Some?
    ensures WorkerAlert(weather).Some? ==> WorkerAlert(weather).value.title == WeatherNotification(weather).value.title
    ensures WorkerAlert(weather) == Some(WorkerHotAlert) <==> WeatherNotification(weather) == Some(HotAlert)
    ensures WorkerAlert(weather) != Some(WorkerHotAlert) ==> WorkerAlert(weather) == WeatherNotification(weather)
    ensures WorkerHotAlert.message != HotAlert.message
  {
    AlertsDistinct();
    assert |WorkerHotAlert.message| != |HotAlert.message|;
  }
}
