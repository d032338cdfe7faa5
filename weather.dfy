/** The weather fetch (`get_onecall_weather`) and the normalisation of its
    payload into the fixed-shape current-conditions record and the forecast
    list. The endpoint is an oracle from a coordinate pair to the decoded
    reply, `None` standing for a request that raised. Python exceptions that
    the code does not catch become `Raised`. */
module Weather {
  import opened Wrappers
  import opened Json
  import opened Resolver
  import opened Batch

  /** The number of daily entries kept (`daily[:7]`). */
  const ForecastDays: nat := 7

  /** Current conditions. Fields the provider omits are `Null`, except
      `weather` (description, default "") and `rain` (default 0). */
  datatype Current = Current(
    temp: Json, feelsLike: Json, weather: Json, rain: Json,
    wind: Json, humidity: Json, pressure: Json)

  /** One forecast day; `date` is the formatted timestamp. */
  datatype Day = Day(date: string, temp: Json, weather: Json, rain: Json, wind: Json)

  /** What the caller reads from a fetched payload: either no usable data,
      or its `current` section and, when present, its `daily` section. */
  datatype Payload = NoData | Sections(current: Json, daily: Option<Json>)

  /** `get_onecall_weather`: no request without an API key. */
  function OneCall(apiKey: Option<string>, onecall: (Json, Json) -> Option<Json>, c: Coords): (r: Option<Json>)
    ensures !HasKey(apiKey) ==> r == None
    ensures HasKey(apiKey) ==> r == onecall(c.lat, c.lon)
  {
    if !HasKey(apiKey) then None else onecall(c.lat, c.lon)
  }

  /** `if not onecall or 'current' not in onecall` followed by
      `onecall['current']` and `'daily' in onecall`. A dictionary never
      raises here; a truthy list or string that contains "current" raises
      when indexed by a string, and `in` on a truthy number raises. */
  function ReadPayload(onecall: Option<Json>): (r: Outcome<Payload>)
    ensures onecall.None? ==> r == Ok(NoData)
    ensures onecall.Some? && !Truthy(onecall.value) ==> r == Ok(NoData)
    ensures onecall.Some? && onecall.value.Obj? ==>
      var fields := onecall.value.fields;
      && r.Ok?
      && (r.value.NoData? <==> "current" !in fields)
      && (r.value.Sections? ==> r.value.current == fields["current"] && r.value.daily == Lookup(fields, "daily"))
    ensures r.Raised? ==> onecall.Some? && Truthy(onecall.value) && !onecall.value.Obj?
  {
    match onecall
    case None => Ok(NoData)
    case Some(payload) =>
      if !Truthy(payload) then Ok(NoData)
      else
        match payload
        case Obj(fields) =>
          if "current" in fields then Ok(Sections(fields["current"], Lookup(fields, "daily"))) else Ok(NoData)
        case Arr(items) => if Str("current") in items then Raised else Ok(NoData)
        case Str(s) => if IsSubstring("current", s) then Raised else Ok(NoData)
        case _ => Raised
  }

  /** `c.get('weather', [{}])[0].get('description', '')`. */
  function CurrentDescription(fields: map<string, Json>): (r: Outcome<Json>)
    ensures "weather" !in fields ==> r == Ok(Str(""))
    ensures "weather" in fields ==>
      var w := fields["weather"];
      && (r.Ok? <==> w.Arr? && w.items != [] && w.items[0].Obj?)
      && (r.Ok? ==> r.value == GetOr(w.items[0].fields, "description", Str("")))
  {
    if "weather" !in fields then Ok(Str(""))
    else
      match fields["weather"]
      case Arr(items) =>
        if items != [] && items[0].Obj? then Ok(GetOr(items[0].fields, "description", Str(""))) else Raised
      case _ => Raised
  }

  /** `c.get('rain', {}).get('1h', 0)`. */
  function CurrentRain(fields: map<string, Json>): (r: Outcome<Json>)
    ensures "rain" !in fields ==> r == Ok(Int(0))
    ensures "rain" in fields ==>
      (r.Ok? <==> fields["rain"].Obj?) &&
      (r.Ok? ==> r.value == GetOr(fields["rain"].fields, "1h", Int(0)))
  {
    if "rain" !in fields then Ok(Int(0))
    else
      match fields["rain"]
      case Obj(rain) => Ok(GetOr(rain, "1h", Int(0)))
      case _ => Raised
  }

  /** The current-conditions record built from `onecall['current']`. */
  function CurrentOf(c: Json): (r: Outcome<Current>)
    ensures r.Ok? <==> c.Obj? && CurrentDescription(c.fields).Ok? && CurrentRain(c.fields).Ok?
    ensures r.Ok? ==>
      && r.value.weather == CurrentDescription(c.fields).value
      && r.value.rain == CurrentRain(c.fields).value
      && r.value.temp == GetOr(c.fields, "temp", Null)
      && r.value.feelsLike == GetOr(c.fields, "feels_like", Null)
      && r.value.wind == GetOr(c.fields, "wind_speed", Null)
      && r.value.humidity == GetOr(c.fields, "humidity", Null)
      && r.value.pressure == GetOr(c.fields, "pressure", Null)
  {
    match c
    case Obj(fields) =>
      var weather := CurrentDescription(fields);
      var rain := CurrentRain(fields);
      if weather.Raised? || rain.Raised? then Raised
      else
        Ok(Current(
          GetOr(fields, "temp", Null), GetOr(fields, "feels_like", Null), weather.value, rain.value,
          GetOr(fields, "wind_speed", Null), GetOr(fields, "humidity", Null), GetOr(fields, "pressure", Null)))
    case _ => Raised
  }

  /** Absent optional fields of the current conditions never raise: a
      dictionary without `weather` and `rain` yields description "" and
      rain 0, and passes every other field through (`Null` when absent). */
  lemma CurrentDefaults(fields: map<string, Json>)
    requires "weather" !in fields && "rain" !in fields
    ensures CurrentOf(Obj(fields)).Ok?
    ensures CurrentOf(Obj(fields)).value.weather == Str("")
    ensures CurrentOf(Obj(fields)).value.rain == Int(0)
  {
  }

  /** The record of one daily entry. `dt`, `temp.day`,
      `weather[0].description` and `wind_speed` are required (a missing one
      raises), `rain` defaults to 0. `formatDate` is the local-time
      `fromtimestamp(dt).strftime('%Y-%m-%d')`, `None` when it raises. */
  function DayOf(d: Json, formatDate: Json -> Option<string>): (r: Outcome<Day>)
    ensures r.Ok? <==>
      && d.Obj? && "dt" in d.fields && "temp" in d.fields && "weather" in d.fields && "wind_speed" in d.fields
      && formatDate(d.fields["dt"]).Some?
      && d.fields["temp"].Obj? && "day" in d.fields["temp"].fields
      && d.fields["weather"].Arr? && d.fields["weather"].items != []
      && d.fields["weather"].items[0].Obj? && "description" in d.fields["weather"].items[0].fields
    ensures r.Ok? ==>
      && Some(r.value.date) == formatDate(d.fields["dt"])
      && r.value.temp == d.fields["temp"].fields["day"]
      && r.value.weather == d.fields["weather"].items[0].fields["description"]
      && r.value.rain == GetOr(d.fields, "rain", Int(0))
      && r.value.wind == d.fields["wind_speed"]
  {
    match d
    case Obj(fields) =>
      if "dt" in fields && "temp" in fields && "weather" in fields && "wind_speed" in fields then
        var date := formatDate(fields["dt"]);
        var temp := fields["temp"];
        var weather := fields["weather"];
        if && date.Some?
           && temp.Obj? && "day" in temp.fields
           && weather.Arr? && weather.items != [] && weather.items[0].Obj?
           && "description" in weather.items[0].fields
        then
          Ok(Day(date.value, temp.fields["day"], weather.items[0].fields["description"],
                 GetOr(fields, "rain", Int(0)), fields["wind_speed"]))
        else Raised
      else Raised
    case _ => Raised
  }

  /** `DayOf` as a function of the entry alone. */
  function DayStep(formatDate: Json -> Option<string>): (step: Json -> Outcome<Day>)
    ensures forall d :: step(d) == DayOf(d, formatDate)
  {
    d => DayOf(d, formatDate)
  }

  /** Python's `daily[:7]` on a list. */
  function Window(items: seq<Json>): (r: seq<Json>)
    ensures |r| <= ForecastDays
    ensures |r| == if |items| < ForecastDays then |items| else ForecastDays
    ensures r == items[..|r|]
  {
    items[..if |items| < ForecastDays then |items| else ForecastDays]
  }

  /** The forecast list built from the optional `daily` section. Slicing a
      string yields its characters, and indexing a character by `'dt'`
      raises, so only the empty string yields an empty forecast; slicing
      `None`, a number or a dictionary raises. */
  function ForecastOf(daily: Option<Json>, formatDate: Json -> Option<string>): (r: Outcome<seq<Day>>)
    ensures daily.None? ==> r == Ok([])
    ensures r.Ok? ==> |r.value| <= ForecastDays
    ensures daily.Some? && daily.value.Arr? ==>
      var window := Window(daily.value.items);
      && (r.Ok? ==> |r.value| == |window| && forall k :: 0 <= k < |window| ==> DayOf(window[k], formatDate) == Ok(r.value[k]))
      && (r.Raised? <==> exists k :: 0 <= k < |window| && DayOf(window[k], formatDate).Raised?)
  {
    match daily
    case None => Ok([])
    case Some(Arr(items)) => MapOutcome(DayStep(formatDate), Window(items))
    case Some(Str(s)) => if s == "" then Ok([]) else Raised
    case Some(_) => Raised
  }

  /** A daily entry without `rain` gets rain 0 in the forecast. */
  lemma ForecastRainDefault(items: seq<Json>, formatDate: Json -> Option<string>, k: nat)
    requires ForecastOf(Some(Arr(items)), formatDate).Ok?
    requires k < |items| && k < ForecastDays
    requires items[k].Obj? && "rain" !in items[k].fields
    ensures var days := ForecastOf(Some(Arr(items)), formatDate).value;
      k < |days| && days[k].rain == Int(0)
  {
    var window := Window(items);
    assert window[k] == items[k];
  }

  /** The forecast loop `for d in onecall['daily'][:7]`, appending one
      record per entry to the entry's forecast list. */
  method ForecastEntries(daily: Json, formatDate: Json -> Option<string>) returns (r: Outcome<seq<Day>>)
    ensures r == ForecastOf(Some(daily), formatDate)
  {
    match daily {
      case Arr(items) =>
        var window := Window(items);
        var forecast: seq<Day> := [];
        for k := 0 to |window|
          invariant MapOutcome(DayStep(formatDate), window[..k]) == Ok(forecast)
        {
          var day := DayOf(window[k], formatDate);
          if day.Raised? {
            MapOutcomeRaises(DayStep(formatDate), window, k);
            return Raised;
          }
          MapOutcomeSnoc(DayStep(formatDate), window, k, forecast, day.value);
          forecast := forecast + [day.value];
        }
        assert window[..|window|] == window;
        return Ok(forecast);
      case Str(s) =>
        if s == "" {
          return Ok([]);
        }
        return Raised;
      case _ =>
        return Raised;
    }
  }
}
