# WeatherNow — a Dafny model of its rules and state machines

WeatherNow is an Android weather app. It signs users in with Firebase and
shows forecasts from WeatherAPI. Its home screen lists four popular cities.
A background worker posts a weather alert. Under the UI and the vendor SDKs
sit small deterministic rules, and these are what this project models:

- the weather-alert rule and the background worker's decision;
- the sign-in, sign-up and sign-out use cases, including their error-message mapping;
- the mapping from the forecast response to the domain records;
- the popular-cities aggregation;
- the three view models (weather, auth, splash), as classes over state records;
- the computed parts of the weather, login and registration screens;
- the navigation routes.

Every SDK or network result is a parameter. A repository call is
`Returned(value)` or `Threw(message)`. A view-model handler that launches a
coroutine is split into the step that runs at once and a `Complete…` step
that receives the answer. Notifications, events and preference writes are
recorded as lists.

Modules:

- `Wrappers`: `Option`.
- `Text`: ASCII case folding, substring search, `isBlank`, `takeLast`, `indexOf`, decimal rendering.
- `Numbers`: `toInt` and `roundToInt` on reals.
- `Collections`: `filterNotNull`.
- `WeatherModel`, `WeatherDto`: the records.
- `WeatherRepository`, `PopularCities`, `WeatherAlerts`, `WeatherWorker`, `AuthUseCases`: the domain and data rules.
- `WeatherPresentation`, `AuthPresentation`, `SplashPresentation`: the view models.
- `WeatherScreen`, `AuthScreens`, `Navigation`: the screen helpers and routes.

## Model

| member | source | states |
|---|---|---|
| WeatherAlerts.WeatherNotification | app/src/main/java/com/example/weathernow/domain/use_case/SendWeatherNotificationUseCase.kt:10-31 | At most one alert. Rain (any letter case) gives the rain alert at every temperature. Otherwise above 35 gives the hot alert and below 5 the cold alert. Otherwise, from 5 to 35 inclusive, there is no alert. Each case holds in both directions. |
| WeatherAlerts.AlertsDistinct | app/src/main/java/com/example/weathernow/domain/use_case/SendWeatherNotificationUseCase.kt:14-27 | The three alerts have pairwise different titles, so the outcomes are distinguishable. |
| WeatherAlerts.HeavyRainOnHotDay | app/src/main/java/com/example/weathernow/domain/use_case/SendWeatherNotificationUseCase.kt:12-17 | Example of the WeatherNotification rules: "Light RAIN" at 40 degrees gives the rain alert, because case is ignored and rain beats heat. |
| WeatherAlerts.SunnyBoundariesAreQuiet | app/src/main/java/com/example/weathernow/domain/use_case/SendWeatherNotificationUseCase.kt:18-30 | Example of the WeatherNotification rules: a non-rainy report at exactly 35 or exactly 5 degrees gives no alert, because both bounds are strict. |
| WeatherWorker.GetUserWeather | app/src/main/java/com/example/weathernow/data/workers/WeatherWorker.kt:79-92 | A known location is asked by coordinates, otherwise "Cairo". If reading the location throws, Cairo is asked once. A first call that throws is followed by exactly one more call, for "Cairo", whose answer is the result. Only "Cairo" is ever asked by name. |
| WeatherWorker.MayNotify | app/src/main/java/com/example/weathernow/data/workers/WeatherWorker.kt:31-40 | Below API 33 the worker always goes on. From API 33 it goes on exactly when the notification permission is granted. |
| WeatherWorker.DoWork | app/src/main/java/com/example/weathernow/data/workers/WeatherWorker.kt:28-75 | On API 33+ without permission: success, no call, no notification. Otherwise the calls are those of GetUserWeather, and an exception escaping them gives failure. A null report gives retry. Otherwise success with at most the one worker alert. Retry and failure send nothing. |
| WeatherWorker.WorkerAlert | app/src/main/java/com/example/weathernow/data/workers/WeatherWorker.kt:46-67 | The worker's alert is one of rain, its own hot alert, or cold. |
| WeatherWorker.WorkerAgreesWithUseCase | app/src/main/java/com/example/weathernow/data/workers/WeatherWorker.kt:46-67 | For every report the worker alerts exactly when the use case does, with the same title. It sends its hot alert exactly when the use case sends the hot alert, and otherwise the same notification. The two hot messages differ. |
| AuthUseCases.MessageOrUnknown | app/src/main/java/com/example/weathernow/domain/use_case/SignInUseCase.kt:23 | A null exception message reads as "Unknown error". |
| AuthUseCases.MapSignInError | app/src/main/java/com/example/weathernow/domain/use_case/SignInUseCase.kt:22-30 | Ordered, case-insensitive rules: "no user record", then "password is invalid", then "badly formatted"; the first match wins. An unmatched message is returned unchanged. |
| AuthUseCases.NoAccountTextFixed | app/src/main/java/com/example/weathernow/domain/use_case/SignInUseCase.kt:25 | The no-account text matches no sign-in rule, so it maps to itself. |
| AuthUseCases.IncorrectPasswordTextFixed | app/src/main/java/com/example/weathernow/domain/use_case/SignInUseCase.kt:26 | The incorrect-password text maps to itself. |
| AuthUseCases.InvalidEmailTextFixedForSignIn | app/src/main/java/com/example/weathernow/domain/use_case/SignInUseCase.kt:27 | The invalid-email text maps to itself under the sign-in rules. |
| AuthUseCases.SignInMappingIdempotent | app/src/main/java/com/example/weathernow/domain/use_case/SignInUseCase.kt:14-30 | Mapping a mapped message again changes nothing, for every message, null included. |
| AuthUseCases.SignInUnknownError | app/src/main/java/com/example/weathernow/domain/use_case/SignInUseCase.kt:23-28 | A null message ends as "Unknown error": no rule matches that text. |
| AuthUseCases.SignIn | app/src/main/java/com/example/weathernow/domain/use_case/SignInUseCase.kt:10-20 | Never throws. Success gives "Welcome back ☀️". A failed result goes through two mappings (throw, then catch), and the result equals a single mapping of the repository's message. A thrown exception is mapped once. |
| AuthUseCases.MapSignUpError | app/src/main/java/com/example/weathernow/domain/use_case/SignUpUseCase.kt:21-30 | Ordered rules: "already in use" (even when "badly formatted" is also present), then "badly formatted", then "WEAK_PASSWORD" or "Password should be at least". Otherwise the message is unchanged. |
| AuthUseCases.InUseTextFixed | app/src/main/java/com/example/weathernow/domain/use_case/SignUpUseCase.kt:24 | The in-use text holds its own phrase, so it maps to itself. |
| AuthUseCases.InvalidEmailTextFixedForSignUp | app/src/main/java/com/example/weathernow/domain/use_case/SignUpUseCase.kt:25 | The invalid-email text matches no sign-up rule. |
| AuthUseCases.ShortPasswordTextFixed | app/src/main/java/com/example/weathernow/domain/use_case/SignUpUseCase.kt:26-27 | The short-password text starts with the weak-password phrase, so it maps to itself. |
| AuthUseCases.SignUpMappingIdempotent | app/src/main/java/com/example/weathernow/domain/use_case/SignUpUseCase.kt:13-30 | The sign-up mapping is idempotent on all messages. |
| AuthUseCases.SignUpUnknownError | app/src/main/java/com/example/weathernow/domain/use_case/SignUpUseCase.kt:22-28 | A null message ends as "Unknown error". |
| AuthUseCases.SignUp | app/src/main/java/com/example/weathernow/domain/use_case/SignUpUseCase.kt:9-19 | Never throws. Success gives "Account created successfully 🌤". Every failure equals a single mapping of the underlying message. |
| AuthUseCases.SignOutAsWritten | app/src/main/java/com/example/weathernow/domain/use_case/SignOutUseCase.kt:10-20 | As written: success gives "Signed out successfully 🌧", and every failure starts with "Sign-out failed: ". An exception thrown by the repository gives the prefix once, before the message or "Unknown error". |
| AuthUseCases.SignOutPrefixDoubled | app/src/main/java/com/example/weathernow/domain/use_case/SignOutUseCase.kt:14-18 | For every message, null included, a failed repository result yields "Sign-out failed: " twice before the message or "Unknown error". Removing the prefix once does not give back that message. |
| AuthUseCases.SignOut | app/src/main/java/com/example/weathernow/domain/use_case/SignOutUseCase.kt:10-20 | Corrected sign-out: the same success and the same prefix. |
| AuthUseCases.SignOutMessageRecovered | app/src/main/java/com/example/weathernow/domain/use_case/SignOutUseCase.kt:15-18 | In the corrected version, removing the prefix once gives the underlying message, or "Unknown error", for both failure paths. |
| WeatherRepository.WeatherRequest | app/src/main/java/com/example/weathernow/data/repository/WeatherRepositoryImpl.kt:19 | The forecast is always asked for 7 days for the given city. |
| WeatherRepository.CityLabel | app/src/main/java/com/example/weathernow/data/repository/WeatherRepositoryImpl.kt:15 | A hit's label is its name, then ", ", then its country, with nothing else in it. |
| WeatherRepository.GetCities | app/src/main/java/com/example/weathernow/data/repository/WeatherRepositoryImpl.kt:13-16 | One "name, country" label per search hit, in the same order. |
| WeatherRepository.GetCitiesIgnoresRegion | app/src/main/java/com/example/weathernow/data/repository/WeatherRepositoryImpl.kt:15 | Hits that differ only in region give the same labels. |
| WeatherRepository.ToHourly | app/src/main/java/com/example/weathernow/data/repository/WeatherRepositoryImpl.kt:26-32 | One hourly entry per hour, in order. The time is the last 5 characters of the timestamp; temperature and condition are copied. |
| WeatherRepository.ToDaily | app/src/main/java/com/example/weathernow/data/repository/WeatherRepositoryImpl.kt:33-40 | One daily entry per forecast day, in order, with date, min, max and condition copied. |
| WeatherRepository.ToWeatherInfo | app/src/main/java/com/example/weathernow/data/repository/WeatherRepositoryImpl.kt:18-42 | Name, temperature, condition, humidity and wind are copied. Daily covers all days. Hourly comes from the first day only, and is empty without days. |
| Text.TakeLast | app/src/main/java/com/example/weathernow/data/repository/WeatherRepositoryImpl.kt:28 | `takeLast(n)` is the suffix of length min(n, length). |
| Text.Lower | app/src/main/java/com/example/weathernow/domain/use_case/SendWeatherNotificationUseCase.kt:12 | Case folding keeps the length and folds every character. |
| Text.ContainsIgnoreCaseBounds | app/src/main/java/com/example/weathernow/domain/use_case/SendWeatherNotificationUseCase.kt:12 | `contains(…, ignoreCase = true)` only widens `contains`: an exact occurrence always counts, and a needle longer than the haystack never does. |
| Text.IsWhitespace | app/src/main/java/com/example/weathernow/presentation/auth/AuthViewModel.kt:35 | Space, tab, newline and carriage return are whitespace. ASCII letters and digits are not. |
| Text.IsBlank | app/src/main/java/com/example/weathernow/presentation/auth/AuthViewModel.kt:35-39 | `isBlank`: a string is blank exactly when every character is whitespace, so the empty string is blank. |
| Text.IndexOf | app/src/main/java/com/example/weathernow/domain/use_case/GetPopularCitiesWeatherUseCase.kt:26 | The first occurrence of a separator: it is there, there is none earlier, and None means none at all. |
| Text.FirstOccurrenceAfter | app/src/main/java/com/example/weathernow/domain/use_case/GetPopularCitiesWeatherUseCase.kt:26 | In a + sep + b, with no sep in a and no self-overlap of sep, the first sep is at |a|. |
| Text.IntToDecimal | app/src/main/java/com/example/weathernow/domain/use_case/GetPopularCitiesWeatherUseCase.kt:33 | `Int.toString`: never empty, and starts with "-" exactly for negative numbers. The rest holds only digits and has no leading zero, except for 0 itself, so there is no "07" and no "-0". |
| Text.DecimalRoundTrip | app/src/main/java/com/example/weathernow/domain/use_case/GetPopularCitiesWeatherUseCase.kt:33 | Reading the decimal digits of n gives n back. |
| Text.IntRoundTrip | app/src/main/java/com/example/weathernow/domain/use_case/GetPopularCitiesWeatherUseCase.kt:33 | Parsing the rendering of any integer, negative included, gives it back. |
| Numbers.TruncateToInt | app/src/main/java/com/example/weathernow/domain/use_case/GetPopularCitiesWeatherUseCase.kt:33 | `toInt()` drops the fraction toward zero, for both signs. |
| Numbers.RoundToInt | app/src/main/java/com/example/weathernow/presentation/weather/WeatherScreen.kt:185 | `roundToInt()` is within half a unit: r - 0.5 <= x < r + 0.5. |
| Collections.FilterNotNull | app/src/main/java/com/example/weathernow/domain/use_case/GetPopularCitiesWeatherUseCase.kt:44 | `filterNotNull` never lengthens the list. |
| Collections.FilterNotNullAppend | app/src/main/java/com/example/weathernow/domain/use_case/GetPopularCitiesWeatherUseCase.kt:44 | Filtering distributes over concatenation. |
| Collections.FilterNotNullAround | app/src/main/java/com/example/weathernow/domain/use_case/GetPopularCitiesWeatherUseCase.kt:44 | The result splits around any position into before, that element if present, and after. |
| Collections.FilterNotNullOrigins | app/src/main/java/com/example/weathernow/domain/use_case/GetPopularCitiesWeatherUseCase.kt:44 | Each kept value comes from a present element, at strictly increasing positions, so order is kept. |
| Collections.FilterNotNullAllPresent | app/src/main/java/com/example/weathernow/domain/use_case/GetPopularCitiesWeatherUseCase.kt:44 | With every element present, nothing is dropped and the values are in place. |
| PopularCities.FirstSegment | app/src/main/java/com/example/weathernow/domain/use_case/GetPopularCitiesWeatherUseCase.kt:26-27 | `split(", ")[0]`: a prefix of the label with no ", " in it, which is either the whole label or ends where a ", " starts. So it is the text before the first ", ", or the whole label without one. |
| PopularCities.SplitCityLabel | app/src/main/java/com/example/weathernow/domain/use_case/GetPopularCitiesWeatherUseCase.kt:26-28 | The name is the first segment. With a separator, the first ", " starts right after the name, and the country is the first segment of the rest. Without one, the country is "". |
| PopularCities.SplitJoinRoundTrip | app/src/main/java/com/example/weathernow/domain/use_case/GetPopularCitiesWeatherUseCase.kt:26-28 | Splitting "n, c" gives (n, c) when neither holds ", ". |
| PopularCities.SearchLabelRoundTrip | app/src/main/java/com/example/weathernow/domain/use_case/GetPopularCitiesWeatherUseCase.kt:26-28 | The labels that city search produces split back into the hit's name and country. |
| PopularCities.TemperatureLabel | app/src/main/java/com/example/weathernow/domain/use_case/GetPopularCitiesWeatherUseCase.kt:33 | The label is the canonical decimal rendering of the truncated whole degrees, with no leading zero and no "-0", which parses back. It is followed by the literal "Â°C". |
| PopularCities.Summarize | app/src/main/java/com/example/weathernow/domain/use_case/GetPopularCitiesWeatherUseCase.kt:23-40 | A summary exists exactly when the fetch returned non-null weather. Its name and country come from the split, and its temperature from the label. |
| PopularCities.SummarizeAll | app/src/main/java/com/example/weathernow/domain/use_case/GetPopularCitiesWeatherUseCase.kt:21-42 | One optional summary per label, in order. |
| PopularCities.PopularCitiesWeather | app/src/main/java/com/example/weathernow/domain/use_case/GetPopularCitiesWeatherUseCase.kt:20-45 | At most 4 summaries. |
| PopularCities.FailedCityDropped | app/src/main/java/com/example/weathernow/domain/use_case/GetPopularCitiesWeatherUseCase.kt:35-44 | A city whose fetch threw or returned null is absent. The others' summaries stay, in order. |
| PopularCities.SucceededCityKept | app/src/main/java/com/example/weathernow/domain/use_case/GetPopularCitiesWeatherUseCase.kt:24-44 | A city whose fetch returned weather keeps its summary, between those of the cities before and after it. |
| PopularCities.AllCitiesSucceed | app/src/main/java/com/example/weathernow/domain/use_case/GetPopularCitiesWeatherUseCase.kt:13-44 | When all four fetches succeed, the result is the four summaries in list order. |
| PopularCities.DefaultCityParts | app/src/main/java/com/example/weathernow/domain/use_case/GetPopularCitiesWeatherUseCase.kt:13-28 | The four default labels split into New York/USA, London/UK, Tokyo/Japan and Paris/France. |
| PopularCities.SummaryNamesDefaultCity | app/src/main/java/com/example/weathernow/domain/use_case/GetPopularCitiesWeatherUseCase.kt:13-34 | The summary kept for the j-th label names the j-th default city. |
| PopularCities.PopularCitiesInDefaultOrder | app/src/main/java/com/example/weathernow/domain/use_case/GetPopularCitiesWeatherUseCase.kt:13-44 | Every result names a default city, in the default order, and no city appears twice. |
| WeatherPresentation.RequestFor | app/src/main/java/com/example/weathernow/presentation/weather/WeatherViewModel.kt:50-55 | A city intent asks by city; a location intent asks by coordinates. |
| WeatherPresentation.FailedLoad | app/src/main/java/com/example/weathernow/presentation/weather/WeatherViewModel.kt:63-64 | A failed load stops loading and shows the message or "Error loading weather". The data is kept. |
| WeatherPresentation.ToPopularCities | app/src/main/java/com/example/weathernow/presentation/weather/WeatherViewModel.kt:89-91 | Summaries are copied field by field, in order. |
| WeatherPresentation.WeatherViewModel.constructor | app/src/main/java/com/example/weathernow/presentation/weather/WeatherViewModel.kt:26-48 | Empty state, cities, popular cities and events. Recent searches are San Francisco, Los Angeles, Chicago; they are a constant, never modified. |
| WeatherPresentation.WeatherViewModel.HandleIntent | app/src/main/java/com/example/weathernow/presentation/weather/WeatherViewModel.kt:50-58 | Starting either load sets isLoading, clears the error, keeps the data and issues the intent's request. |
| WeatherPresentation.WeatherViewModel.CompleteLoadWeatherByCity | app/src/main/java/com/example/weathernow/presentation/weather/WeatherViewModel.kt:59-66 | Success stores the (possibly null) data and stops loading. A throw goes through FailedLoad. No event either way. |
| WeatherPresentation.WeatherViewModel.CompleteLoadWeatherByLocation | app/src/main/java/com/example/weathernow/presentation/weather/WeatherViewModel.kt:71-82 | The same state changes as the city load. NavigateToWeatherDetail is appended exactly when the call did not throw. |
| WeatherPresentation.WeatherViewModel.CompleteLoadPopularCities | app/src/main/java/com/example/weathernow/presentation/weather/WeatherViewModel.kt:85-96 | The popular cities become the copied summaries, or empty on an exception. |
| WeatherPresentation.WeatherViewModel.LoadCities | app/src/main/java/com/example/weathernow/presentation/weather/WeatherViewModel.kt:98-103 | A query shorter than 2 empties the cities and starts no search. Otherwise a search for exactly that query starts, and the list is left as it is. |
| WeatherPresentation.WeatherViewModel.CompleteLoadCities | app/src/main/java/com/example/weathernow/presentation/weather/WeatherViewModel.kt:103-110 | The result replaces the cities; an exception empties them. |
| AuthPresentation.FieldErrors | app/src/main/java/com/example/weathernow/presentation/auth/AuthViewModel.kt:35-39 | Each field error is set exactly when its field is blank, with its fixed text. Nothing else changes. |
| AuthPresentation.FailedAuth | app/src/main/java/com/example/weathernow/presentation/auth/AuthViewModel.kt:58-62 | A failure changes only isLoading (to false) and error (to the exception's message). |
| AuthPresentation.AuthViewModel.constructor | app/src/main/java/com/example/weathernow/presentation/auth/AuthViewModel.kt:18-23 | The default state, with no preference written, satisfies the invariant that signed in implies a known email. |
| AuthPresentation.AuthViewModel.BeginSignIn | app/src/main/java/com/example/weathernow/presentation/auth/AuthViewModel.kt:34-44 | A blank email or password only sets the field errors and launches nothing. Otherwise loading starts and the error is cleared. The invariant is kept. |
| AuthPresentation.AuthViewModel.CompleteSignIn | app/src/main/java/com/example/weathernow/presentation/auth/AuthViewModel.kt:45-63 | Success gives "Login successful", signed in, the email, and the repository's current name. True is written to remember-me only when asked. Failure goes through FailedAuth and writes nothing. |
| AuthPresentation.AuthViewModel.BeginSignUp | app/src/main/java/com/example/weathernow/presentation/auth/AuthViewModel.kt:67-77 | The same validation as sign-in; the name is not checked. |
| AuthPresentation.AuthViewModel.CompleteSignUp | app/src/main/java/com/example/weathernow/presentation/auth/AuthViewModel.kt:78-91 | Success gives "Account created successfully", signed in, the entered email and name. Failure goes through FailedAuth. |
| AuthPresentation.AuthViewModel.SignOut | app/src/main/java/com/example/weathernow/presentation/auth/AuthViewModel.kt:95-101 | Writes false to remember-me and resets the state to the defaults. |
| AuthPresentation.AuthViewModel.CheckUserEmission | app/src/main/java/com/example/weathernow/presentation/auth/AuthViewModel.kt:103-116 | Signed in exactly when remembered and an email exists. The email is kept only when remembered; the name is updated. |
| SplashPresentation.SplashViewModel.constructor | app/src/main/java/com/example/weathernow/presentation/splash/SplashState.kt:3-7 | Starts checking, not signed in, no email. |
| SplashPresentation.SplashViewModel.CheckUser | app/src/main/java/com/example/weathernow/presentation/splash/SplashViewModel.kt:27-37 | Checking ends. Signed in exactly when remembered and an email exists. The email is shown only when remembered. Signed in implies an email. |
| WeatherScreen.WeatherIconUrl | app/src/main/java/com/example/weathernow/presentation/weather/WeatherScreen.kt:373-392 | Always one of three URLs. 308 exactly for rain, even with "cloudy" or "sun". 116 exactly for cloudy without rain. 113 for everything else. |
| WeatherScreen.RainIconMatchesRainAlert | app/src/main/java/com/example/weathernow/presentation/weather/WeatherScreen.kt:375-378 | The rain icon is shown exactly for the reports that raise the rain alert. |
| WeatherScreen.PartlyCloudyIcon | app/src/main/java/com/example/weathernow/presentation/weather/WeatherScreen.kt:380-383 | Example of the WeatherIconUrl rules: "Partly cloudy" gets the cloudy icon. |
| WeatherScreen.OvercastIcon | app/src/main/java/com/example/weathernow/presentation/weather/WeatherScreen.kt:385-391 | Example of the WeatherIconUrl rules: "Overcast", which has no rule's word in it, gets the sunny icon. |
| WeatherScreen.HourlyCell | app/src/main/java/com/example/weathernow/presentation/weather/WeatherScreen.kt:184-185 | Index 0 is labelled "Now", the others by their time. The temperature is rounded, and the icon is the condition's. |
| WeatherScreen.HourlyCells | app/src/main/java/com/example/weathernow/presentation/weather/WeatherScreen.kt:183-186 | One cell per hour from a start index, numbered by position. |
| WeatherScreen.HourlyStrip | app/src/main/java/com/example/weathernow/presentation/weather/WeatherScreen.kt:183-186 | At most the first 10 hours; only the first is labelled "Now". |
| WeatherScreen.HourlyLabelsFromResponse | app/src/main/java/com/example/weathernow/presentation/weather/WeatherScreen.kt:183-185 | Through repository and screen: every shown hour after the first is labelled with the last 5 characters of its first-day timestamp. |
| WeatherScreen.TodayHighLow | app/src/main/java/com/example/weathernow/presentation/weather/WeatherScreen.kt:120-121 | High and low are within half a degree of the first daily entry's max and min, or 0 and 0 without one. |
| WeatherScreen.DetailsFor | app/src/main/java/com/example/weathernow/presentation/weather/WeatherScreen.kt:74-79 | Visibility is always 10 km and pressure 1013 mb. Humidity is copied and wind rounded. |
| WeatherScreen.ScreenContent | app/src/main/java/com/example/weathernow/presentation/weather/WeatherScreen.kt:48-90 | Loading shows the spinner. Otherwise an error shows its text, otherwise data shows the forecast, otherwise the waiting text. |
| AuthScreens.LoginErrors | app/src/main/java/com/example/weathernow/presentation/auth/LoginScreen.kt:154-184 | A field is flagged exactly when errors are shown and it is blank. Nothing is flagged before the first press. After it, nothing is flagged exactly when the form can be sent. |
| AuthScreens.LoginForm.constructor | app/src/main/java/com/example/weathernow/presentation/auth/LoginScreen.kt:37-44 | Empty fields, remember-me on, errors hidden. |
| AuthScreens.LoginForm.PressSignIn | app/src/main/java/com/example/weathernow/presentation/auth/LoginScreen.kt:198-202 | Every press shows errors. The intent is sent exactly when both fields are non-blank, and carries them and the remember-me flag unchanged. |
| AuthScreens.RegisterDecision | app/src/main/java/com/example/weathernow/presentation/auth/RegisterScreen.kt:234-239 | The `when` chain sends exactly when the name, email and password are non-blank, the passwords match and the terms are agreed. |
| AuthScreens.RegisterFieldErrors | app/src/main/java/com/example/weathernow/presentation/auth/RegisterScreen.kt:142-226 | Nothing is marked before the first press. After it, full name, email and password are each marked exactly when blank. Confirm is marked exactly when blank or different from the password; the mismatch text shows exactly when they differ. Terms are marked exactly when unticked. Nothing is marked exactly when the form is sent. |
| AuthScreens.BlankConfirmWithoutMismatchText | app/src/main/java/com/example/weathernow/presentation/auth/RegisterScreen.kt:205-209 | Matching whitespace-only passwords mark the confirm field (whitespace is blank) without the "do not match" text. |
| AuthScreens.RegisterForm.constructor | app/src/main/java/com/example/weathernow/presentation/auth/RegisterScreen.kt:37-42 | Empty fields, terms unticked, errors hidden. |
| AuthScreens.RegisterForm.PressRegister | app/src/main/java/com/example/weathernow/presentation/auth/RegisterScreen.kt:232-239 | Every press shows errors. The sign-up intent is sent exactly when RegisterDecision holds, with the name, email and password as entered. |
| Navigation.CreateWeatherRoute | app/src/main/java/com/example/weathernow/presentation/navigation/Screen.kt:8 | The route is "weather/" followed by the city. |
| Navigation.Route | app/src/main/java/com/example/weathernow/presentation/navigation/Screen.kt:3-10 | Only the weather route starts with "weather/". The other four are plain lower-case words. |
| Navigation.CityFromRoute | app/src/main/java/com/example/weathernow/presentation/navigation/Screen.kt:7-8 | A route has a city exactly when it starts with "weather/", and prefix plus city rebuild the route. |
| Navigation.WeatherRouteRoundTrip | app/src/main/java/com/example/weathernow/presentation/navigation/Screen.kt:8 | Removing the prefix gives the city back, and every weather route is createRoute of its city. |
| Navigation.RoutesDistinct | app/src/main/java/com/example/weathernow/presentation/navigation/Screen.kt:3-10 | The five base routes are pairwise distinct. |
| Navigation.WeatherRouteIsNoOtherScreen | app/src/main/java/com/example/weathernow/presentation/navigation/Screen.kt:4-10 | No city makes createRoute equal the login, register, location or splash route. |
| Navigation.PlaceholderGivesPattern | app/src/main/java/com/example/weathernow/presentation/navigation/Screen.kt:7-8 | createRoute("{city}") is the weather route pattern. |

## Left out

- Compose rendering, theming, snackbars, the dropdown menu, the cards, chips, the splash and location screens, and the NavHost wiring: they are UI with nothing to state beyond the helpers above.
- Firebase, DataStore, the fused location client, Retrofit, Hilt and the notification delivery: their answers are parameters. `NotificationHelper` is not part of this model.
- Coroutines: launches, the `async`/`awaitAll` fan-out (modelled as a sequential map), the event `Channel` (an append-only list), and interleavings of overlapping loads. Each `Complete…` step is applied to the state it finds.
- The remember-me `Flow` that `checkUser` collects for ever: each emission is one call of `CheckUserEmission`.
- Floating point: temperatures are exact reals; `toInt` and `roundToInt` are modelled on them.
- Character details: lengths count `char`s, not UTF-16 units. Case folding covers ASCII letters only. `isBlank` covers the JVM whitespace set of the Basic Multilingual Plane.
- Kotlin `split(", ")` is modelled through its first two pieces, the only ones the use case reads.
- `AuthIntent.ForgotPassword` has no handler in the view model, so it is a no-op with nothing to model. `AuthViewModel.handleIntent` and `SplashViewModel.handleIntent` only dispatch to the modelled steps.
- `getWeatherByCoordinates` is declared by the repository interface but not implemented in `WeatherRepositoryImpl`. The worker and the view model only receive its answer.
- `SignUpUseCase` and the register button call with two arguments where three are declared. The sign-up use case takes the repository's answer whatever the arguments were. The register button sends the full name, email and password, as the intent declares.
- The one-line use cases `GetWeatherUseCase`, `GetCitiesUseCase` and `GetCurrentUserUseCase` only delegate to the repository.
- Text field edits and visibility toggles are plain field assignments on the form classes.
- WeatherWorker.WorkerAlert: its own contract only bounds the choice to three alerts; the priority rule is stated through WeatherWorker.WorkerAgreesWithUseCase.

## Findings

| source | as written | input that shows it | evidently intended | confidence | as-written member | corrected member |
|---|---|---|---|---|---|---|
| app/src/main/java/com/example/weathernow/domain/use_case/SignOutUseCase.kt:14-18 | A failed sign-out result is rethrown as "Sign-out failed: m". The catch then wraps that message again, giving "Sign-out failed: Sign-out failed: m". | The repository returns a failure with any message, e.g. "network error". | The prefix appears once, as for an exception thrown by the repository itself. | not executed | AuthUseCases.SignOutPrefixDoubled | AuthUseCases.SignOutMessageRecovered |
