/**
 * The popular-cities use case: the weather of four fixed "City, Country"
 * labels is fetched, each label is split into name and country, the current
 * temperature becomes a label, and cities whose fetch failed are dropped.
 * The parallel fan-out is modelled as a sequential map over the labels; the
 * repository is a function from label to the outcome of its fetch.
 */
module PopularCities {
  import opened Wrappers
  import opened Text
  import opened Numbers
  import opened WeatherModel
  import opened Collections
  import WeatherRepository
  import WeatherDto

  const DefaultPopularCities: seq<string> := ["New York, USA", "London, UK", "Tokyo, Japan", "Paris, France"]

  const LabelSeparator: string := ", "

  /** The unit appended to the temperature, byte for byte as the source has it. */
  const DegreesSuffix: string := "Â°C"

  /** The text before the first ", ", or all of `s` when there is none. */
  function FirstSegment(s: string): (segment: string)
    ensures !Contains(segment, LabelSeparator)
    ensures StartsWith(s, segment)
    ensures segment == s || ContainsAt(s, LabelSeparator, |segment|)
  {
    match IndexOf(s, LabelSeparator)
    case None => s
    case Some(i) =>
      assert forall j: nat :: j <= i && ContainsAt(s[..i], LabelSeparator, j) ==> ContainsAt(s, LabelSeparator, j);
      s[..i]
  }

  /**
   * `label.split(", ")` followed by `parts[0]` and `parts.getOrElse(1) { "" }`:
   * the name is the text before the first ", " and the country the text between
   * the first and the second one (or to the end), or "" without a separator.
   */
  function SplitCityLabel(text: string): (parts: (string, string))
    ensures parts.0 == FirstSegment(text)
    ensures !Contains(text, LabelSeparator) ==> parts == (text, "")
    ensures Contains(text, LabelSeparator) ==>
      exists i: nat | i + 2 <= |text| :: text[..i] == parts.0 && parts.1 == FirstSegment(text[i + 2..])
    ensures Contains(text, LabelSeparator) ==>
      ContainsAt(text, LabelSeparator, |parts.0|) && parts.1 == FirstSegment(text[|parts.0| + 2..])
  {
    match IndexOf(text, LabelSeparator)
    case None => (text, "")
    case Some(i) => (text[..i], FirstSegment(text[i + |LabelSeparator|..]))
  }

  /** Splitting "name, country" gives back both parts when neither holds ", ". */
  lemma SplitJoinRoundTrip(name: string, country: string)
    requires !Contains(name, LabelSeparator) && !Contains(country, LabelSeparator)
    ensures SplitCityLabel(name + LabelSeparator + country) == (name, country)
  {
    var joined := name + LabelSeparator + country;
    assert LabelSeparator[1..] == " " && LabelSeparator[..1] == ",";
    assert !StartsWith(LabelSeparator, LabelSeparator[1..]);
    FirstOccurrenceAfter(name, LabelSeparator, country);
    assert joined[..|name|] == name;
    assert joined[|name| + 2..] == country;
    assert IndexOf(country, LabelSeparator).None?;
  }

  /** The labels that the repository's city search produces split back into name and country. */
  lemma SearchLabelRoundTrip(hit: WeatherDto.CitySearchDto)
    requires !Contains(hit.name, LabelSeparator) && !Contains(hit.country, LabelSeparator)
    ensures SplitCityLabel(WeatherRepository.CityLabel(hit)) == (hit.name, hit.country)
  {
    SplitJoinRoundTrip(hit.name, hit.country);
  }

  /** The temperature label: the whole degrees (fraction dropped) followed by "Â°C". */
  function TemperatureLabel(currentTemp: real): (text: string)
    ensures |text| > |DegreesSuffix|
    ensures text[|text| - |DegreesSuffix|..] == DegreesSuffix
    ensures ParseInt(text[..|text| - |DegreesSuffix|]) == Some(TruncateToInt(currentTemp))
    ensures text[..|text| - |DegreesSuffix|] == IntToDecimal(TruncateToInt(currentTemp))
  {
    var digits := IntToDecimal(TruncateToInt(currentTemp));
    IntRoundTrip(TruncateToInt(currentTemp));
    assert (digits + DegreesSuffix)[..|digits|] == digits;
    digits + DegreesSuffix
  }

  /** The summary of one city, or nothing when its fetch threw or returned null. */
  function Summarize(cityLabel: string, outcome: Fetch<Option<WeatherInfo>>): (summary: Option<PopularCitySummary>)
    ensures summary.Some? <==> outcome.Returned? && outcome.value.Some?
    ensures summary.Some? ==>
      && (summary.value.name, summary.value.country) == SplitCityLabel(cityLabel)
      && summary.value.temperature == TemperatureLabel(outcome.value.value.currentTemp)
  {
    match outcome
    case Returned(Some(info)) =>
      var parts := SplitCityLabel(cityLabel);
      Some(PopularCitySummary(parts.0, parts.1, TemperatureLabel(info.currentTemp)))
    case _ => None
  }

  /** The map step of the use case: one optional summary per label. */
  function SummarizeAll(labels: seq<string>, fetch: string -> Fetch<Option<WeatherInfo>>)
    : (results: seq<Option<PopularCitySummary>>)
    ensures |results| == |labels|
    ensures forall i :: 0 <= i < |labels| ==> results[i] == Summarize(labels[i], fetch(labels[i]))
  {
    if labels == [] then []
    else [Summarize(labels[0], fetch(labels[0]))] + SummarizeAll(labels[1..], fetch)
  }

  /**
   * `GetPopularCitiesWeatherUseCase.invoke`: the repository is asked about each
   * default label; the summaries of those that returned weather are kept.
   */
  function PopularCitiesWeather(fetch: string -> Fetch<Option<WeatherInfo>>): (summaries: seq<PopularCitySummary>)
    ensures |summaries| <= 4
  {
    FilterNotNull(SummarizeAll(DefaultPopularCities, fetch))
  }

  /** A city whose fetch threw or returned null leaves exactly the other cities' summaries. */
  lemma FailedCityDropped(fetch: string -> Fetch<Option<WeatherInfo>>, i: nat)
    requires i < 4
    requires fetch(DefaultPopularCities[i]).Threw? || fetch(DefaultPopularCities[i]) == Returned(None)
    ensures var all := SummarizeAll(DefaultPopularCities, fetch);
      PopularCitiesWeather(fetch) == FilterNotNull(all[..i]) + FilterNotNull(all[i + 1..])
  {
    var all := SummarizeAll(DefaultPopularCities, fetch);
    FilterNotNullAround(all, i);
    assert FilterNotNull(all[..i]) + [] == FilterNotNull(all[..i]);
  }

  /** A city whose fetch returned weather keeps its summary, between those of the cities before and after it. */
  lemma SucceededCityKept(fetch: string -> Fetch<Option<WeatherInfo>>, i: nat)
    requires i < 4
    requires fetch(DefaultPopularCities[i]).Returned? && fetch(DefaultPopularCities[i]).value.Some?
    ensures var all := SummarizeAll(DefaultPopularCities, fetch);
      PopularCitiesWeather(fetch) ==
        FilterNotNull(all[..i])
        + [Summarize(DefaultPopularCities[i], fetch(DefaultPopularCities[i])).value]
        + FilterNotNull(all[i + 1..])
  {
    FilterNotNullAround(SummarizeAll(DefaultPopularCities, fetch), i);
  }

  /** When every fetch returns weather, the result has one summary per default city, in order. */
  lemma AllCitiesSucceed(fetch: string -> Fetch<Option<WeatherInfo>>)
    requires forall i :: 0 <= i < 4 ==>
      fetch(DefaultPopularCities[i]).Returned? && fetch(DefaultPopularCities[i]).value.Some?
    ensures |PopularCitiesWeather(fetch)| == 4
    ensures forall i :: 0 <= i < 4 ==>
      PopularCitiesWeather(fetch)[i] == Summarize(DefaultPopularCities[i], fetch(DefaultPopularCities[i])).value
  {
    var labels := DefaultPopularCities;
    var all := SummarizeAll(labels, fetch);
    forall i | 0 <= i < |all|
      ensures all[i].Some?
    {
      assert all[i] == Summarize(labels[i], fetch(labels[i]));
    }
    FilterNotNullAllPresent(all);
    var summaries := PopularCitiesWeather(fetch);
    assert summaries == FilterNotNull(all);
    forall i | 0 <= i < 4
      ensures summaries[i] == Summarize(labels[i], fetch(labels[i])).value
    {
      assert summaries[i] == all[i].value;
    }
  }

  /** The city names and countries of the default labels, in the same order. */
  const DefaultCityNames: seq<string> := ["New York", "London", "Tokyo", "Paris"]
  const DefaultCountries: seq<string> := ["USA", "UK", "Japan", "France"]

  /** The default labels split into these city names and countries. */
  lemma DefaultCityParts()
    ensures forall k :: 0 <= k < 4 ==> SplitCityLabel(DefaultPopularCities[k]) == (DefaultCityNames[k], DefaultCountries[k])
  {
    forall k | 0 <= k < 4
      ensures SplitCityLabel(DefaultPopularCities[k]) == (DefaultCityNames[k], DefaultCountries[k])
    {
      AbsentChar(DefaultCityNames[k], LabelSeparator, 0);
      AbsentChar(DefaultCountries[k], LabelSeparator, 0);
      assert DefaultPopularCities[k] == DefaultCityNames[k] + LabelSeparator + DefaultCountries[k];
      SplitJoinRoundTrip(DefaultCityNames[k], DefaultCountries[k]);
    }
  }

  /** A summary kept for the `j`-th default label carries the `j`-th default city name. */
  lemma SummaryNamesDefaultCity(fetch: string -> Fetch<Option<WeatherInfo>>, j: nat)
    requires j < 4
    requires Summarize(DefaultPopularCities[j], fetch(DefaultPopularCities[j])).Some?
    ensures Summarize(DefaultPopularCities[j], fetch(DefaultPopularCities[j])).value.name == DefaultCityNames[j]
  {
    var summary := Summarize(DefaultPopularCities[j], fetch(DefaultPopularCities[j]));
    DefaultCityParts();
    assert SplitCityLabel(DefaultPopularCities[j]).0 == DefaultCityNames[j];
    assert summary.value.name == SplitCityLabel(DefaultPopularCities[j]).0;
  }

  /** Each result names one of the four default cities, each at most once, in the default order. */
  lemma PopularCitiesInDefaultOrder(fetch: string -> Fetch<Option<WeatherInfo>>)
    ensures var r := PopularCitiesWeather(fetch);
      exists origins: seq<nat> | |origins| == |r| ::
        && (forall k, l :: 0 <= k < l < |r| ==> origins[k] < origins[l])
        && (forall k :: 0 <= k < |r| ==> origins[k] < 4 && r[k].name == DefaultCityNames[origins[k]])
    ensures var r := PopularCitiesWeather(fetch);
      forall k, l :: 0 <= k < l < |r| ==> r[k].name != r[l].name
  {
    var all := SummarizeAll(DefaultPopularCities, fetch);
    var r := PopularCitiesWeather(fetch);
    var origins := FilterNotNullOrigins(all);
    forall k | 0 <= k < |r|
      ensures origins[k] < 4 && r[k].name == DefaultCityNames[origins[k]]
    {
      var j := origins[k];
      assert all[j] == Some(r[k]);
      SummaryNamesDefaultCity(fetch, j);
    }
    assert forall a, b :: 0 <= a < b < 4 ==> DefaultCityNames[a] != DefaultCityNames[b] by {
      forall a, b | 0 <= a < b < 4 ensures DefaultCityNames[a] != DefaultCityNames[b] {
        assert DefaultCityNames[a][0] != DefaultCityNames[b][0];
      }
    }
  }
}
