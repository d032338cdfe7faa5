/** The single-city report behind `/dashboard/city_weather`: the same
    resolution, fetch and normalisation as one dashboard record, answered
    either as an error object or as a report. The request parameter is
    `None` when the query string has no `name`. */
module Routes {
  import opened Wrappers
  import opened Json
  import opened Resolver
  import opened Weather
  import opened Dashboard

  const NoCityError: string := "No city specified."

  /** The JSON object the route answers with: `{'error': …}` alone, or
      the city's name, current conditions and forecast. */
  datatype CityReply = ErrorReply(error: string) | Report(name: string, current: Current, forecast: seq<Day>)

  /** A usable `name` parameter (present and non-empty). */
  predicate HasName(name: Option<string>)
  {
    name.Some? && name.value != ""
  }

  /** The reply to a request: "No city specified." without a name, else the
      dashboard record of that city, answered as an error object when it
      carries an error and as a report otherwise. */
  function CityReplyOf(up: Upstream, name: Option<string>): (r: Outcome<CityReply>)
    ensures !HasName(name) ==> r == Ok(ErrorReply(NoCityError))
    ensures HasName(name) ==> (r.Raised? <==> CityEntry(up, name.value).Raised?)
  {
    if !HasName(name) then Ok(ErrorReply(NoCityError))
    else
      match CityEntry(up, name.value)
      case Raised => Raised
      case Ok(entry) =>
        if entry.error.Some? then Ok(ErrorReply(entry.error.value))
        else Ok(Report(entry.name, entry.current.value, entry.forecast))
  }

  /** What the route answers: "No city specified." exactly when the name
      is missing or empty; "Could not find location." exactly when a given
      name does not resolve; an exception exactly when that city's
      dashboard record raises; and a report only for the named city once
      it resolved, with at most seven forecast days. */
  lemma CityReplyCases(up: Upstream, name: Option<string>)
    ensures var r := CityReplyOf(up, name);
      && (r == Ok(ErrorReply(NoCityError)) <==> !HasName(name))
      && (HasName(name) ==>
            && (r == Ok(ErrorReply(LocationError)) <==> Resolve(up.apiKey, name.value, up.geocode).None?)
            && (r.Raised? <==> CityEntry(up, name.value).Raised?)
            && (r.Ok? && r.value.ErrorReply? ==> r.value.error in {LocationError, WeatherError}))
      && (r.Ok? && r.value.Report? ==>
            && HasName(name)
            && r.value.name == name.value
            && Resolve(up.apiKey, name.value, up.geocode).Some?
            && |r.value.forecast| <= ForecastDays)
  {
    if HasName(name) {
      CityEntryOutcome(up, name.value);
    }
  }

  /** The map report and the dashboard agree: for a city of a dashboard
      that was built, the route answers with exactly that city's record. */
  lemma ReplyMatchesDashboard(up: Upstream, cities: seq<string>, i: nat)
    requires DashboardOf(up, cities).Ok? && i < |cities| && cities[i] != ""
    ensures var entry := DashboardOf(up, cities).value[i];
      && CityReplyOf(up, Some(cities[i])).Ok?
      && (entry.error.Some? ==> CityReplyOf(up, Some(cities[i])).value == ErrorReply(entry.error.value))
      && (entry.error.None? ==>
            CityReplyOf(up, Some(cities[i])).value == Report(cities[i], entry.current.value, entry.forecast))
  {
    assert CityEntry(up, cities[i]) == Ok(DashboardOf(up, cities).value[i]);
  }

  /** `city_weather`: check the parameter, resolve the city, fetch its
      weather, and build the report with up to seven forecast days. */
  method CityWeather(up: Upstream, name: Option<string>) returns (r: Outcome<CityReply>)
    ensures r == CityReplyOf(up, name)
  {
    if !HasName(name) {
      return Ok(ErrorReply(NoCityError));
    }
    var city := name.value;
    var coords := GetLocationCoords(up.apiKey, city, up.geocode);
    if coords.None? {
      return Ok(ErrorReply(LocationError));
    }
    var payload := ReadPayload(OneCall(up.apiKey, up.onecall, coords.value));
    if payload.Raised? {
      return Raised;
    }
    if payload.value.NoData? {
      return Ok(ErrorReply(WeatherError));
    }
    var current := CurrentOf(payload.value.current);
    if current.Raised? {
      return Raised;
    }
    var forecast: seq<Day> := [];
    if payload.value.daily.Some? {
      var days := ForecastEntries(payload.value.daily.value, up.formatDate);
      if days.Raised? {
        return Raised;
      }
      forecast := days.value;
    }
    return Ok(Report(city, current.value, forecast));
  }
}
