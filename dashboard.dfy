/** The dashboard aggregator (`get_dashboard_data`) and the map-marker
    filter (`map_data`): one loop each over a list of city names. */
module Dashboard {
  import opened Wrappers
  import opened Json
  import opened Resolver
  import opened Weather
  import opened Batch

  /** The external collaborators: the API key loaded at start-up, the two
      provider endpoints, and the local-time date formatter. */
  datatype Upstream = Upstream(
    apiKey: Option<string>,
    geocode: string -> Option<Json>,
    onecall: (Json, Json) -> Option<Json>,
    formatDate: Json -> Option<string>)

  const LocationError: string := "Could not find location."
  const WeatherError: string := "Could not fetch weather data."

  /** One dashboard record: the city as given, and either an error or the
      current conditions with the forecast. */
  datatype Entry = Entry(name: string, error: Option<string>, current: Option<Current>, forecast: seq<Day>)

  /** The record `get_dashboard_data` appends for one city, or `Raised`
      when normalising that city's payload raises. */
  function CityEntry(up: Upstream, city: string): (r: Outcome<Entry>)
    ensures r.Ok? ==> r.value.name == city
    ensures r.Ok? ==> (r.value.error.Some? <==> r.value.current.None?)
    ensures r.Ok? && r.value.error.Some? ==> r.value.forecast == []
    ensures r.Ok? ==> |r.value.forecast| <= ForecastDays
  {
    match Resolve(up.apiKey, city, up.geocode)
    case None => Ok(Entry(city, Some(LocationError), None, []))
    case Some(coords) =>
      match ReadPayload(OneCall(up.apiKey, up.onecall, coords))
      case Raised => Raised
      case Ok(NoData) => Ok(Entry(city, Some(WeatherError), None, []))
      case Ok(Sections(c, daily)) =>
        match CurrentOf(c)
        case Raised => Raised
        case Ok(current) =>
          match ForecastOf(daily, up.formatDate)
          case Raised => Raised
          case Ok(days) => Ok(Entry(city, None, Some(current), days))
  }

  /** Which error a record carries and where its data comes from: the
      location error exactly when resolution fails, the weather error
      exactly when the resolved city's payload has no usable data, and
      otherwise the normalised sections of that payload. */
  lemma CityEntryOutcome(up: Upstream, city: string)
    ensures var r := CityEntry(up, city);
      var coords := Resolve(up.apiKey, city, up.geocode);
      && (coords.None? <==> r == Ok(Entry(city, Some(LocationError), None, [])))
      && (r.Ok? && r.value.error == Some(WeatherError) <==>
            coords.Some? && ReadPayload(OneCall(up.apiKey, up.onecall, coords.value)) == Ok(NoData))
      && (r.Ok? && r.value.error.Some? ==> r.value.error.value in {LocationError, WeatherError})
      && (r.Ok? && r.value.error.None? ==>
            && coords.Some?
            && var payload := ReadPayload(OneCall(up.apiKey, up.onecall, coords.value));
            && payload.Ok? && payload.value.Sections?
            && CurrentOf(payload.value.current) == Ok(r.value.current.value)
            && ForecastOf(payload.value.daily, up.formatDate) == Ok(r.value.forecast))
      && (r.Raised? <==>
            && coords.Some?
            && var payload := ReadPayload(OneCall(up.apiKey, up.onecall, coords.value));
            || payload.Raised?
            || (&& payload.value.Sections?
                && (|| CurrentOf(payload.value.current).Raised?
                    || ForecastOf(payload.value.daily, up.formatDate).Raised?)))
  {
  }

  /** A resolved city whose payload has a `current` section that normalises,
      and a `daily` section that does too, gets the full record of exactly
      those sections. */
  lemma CityEntryFull(up: Upstream, city: string, c: Coords, current: Json, daily: Option<Json>, cur: Current, days: seq<Day>)
    requires Resolve(up.apiKey, city, up.geocode) == Some(c)
    requires ReadPayload(OneCall(up.apiKey, up.onecall, c)) == Ok(Sections(current, daily))
    requires CurrentOf(current) == Ok(cur) && ForecastOf(daily, up.formatDate) == Ok(days)
    ensures CityEntry(up, city) == Ok(Entry(city, None, Some(cur), days))
  {
  }

  /** `CityEntry` as a function of the city alone. */
  function EntryOf(up: Upstream): (step: string -> Outcome<Entry>)
    ensures forall city :: step(city) == CityEntry(up, city)
  {
    city => CityEntry(up, city)
  }

  /** The whole dashboard: one record per city, in order; the first city
      whose normalisation raises makes the whole call raise. */
  function DashboardOf(up: Upstream, cities: seq<string>): (r: Outcome<seq<Entry>>)
    ensures r.Ok? ==>
      |r.value| == |cities| && forall i :: 0 <= i < |cities| ==> CityEntry(up, cities[i]) == Ok(r.value[i])
    ensures r.Raised? <==> exists i :: 0 <= i < |cities| && CityEntry(up, cities[i]).Raised?
  {
    MapOutcome(EntryOf(up), cities)
  }

  /** Output order and length follow the input exactly, duplicates
      included: entry `i` is named `cities[i]`, and an error excludes data. */
  lemma {:induction false} DashboardShape(up: Upstream, cities: seq<string>)
    requires DashboardOf(up, cities).Ok?
    ensures var entries := DashboardOf(up, cities).value;
      && |entries| == |cities|
      && forall i :: 0 <= i < |cities| ==>
        && entries[i].name == cities[i]
        && (entries[i].error.Some? <==> entries[i].current.None?)
        && (entries[i].error.Some? ==> entries[i].forecast == [])
        && |entries[i].forecast| <= ForecastDays
  {
    var entries := DashboardOf(up, cities).value;
    forall i | 0 <= i < |cities|
      ensures entries[i].name == cities[i]
    {
      assert CityEntry(up, cities[i]) == Ok(entries[i]);
    }
  }

  /** Without an API key nothing raises and every city gets the
      location error. */
  lemma {:induction false} NoKeyDashboard(up: Upstream, cities: seq<string>)
    requires !HasKey(up.apiKey)
    ensures DashboardOf(up, cities).Ok?
    ensures forall i :: 0 <= i < |cities| ==>
      DashboardOf(up, cities).value[i] == Entry(cities[i], Some(LocationError), None, [])
  {
    forall i | 0 <= i < |cities| ensures CityEntry(up, cities[i]).Ok? {
      CityEntryOutcome(up, cities[i]);
    }
  }

  /** The body of the `get_dashboard_data` loop for one city: start a
      record, resolve the city, fetch its weather and fill the record in. */
  method CityRecord(up: Upstream, city: string) returns (r: Outcome<Entry>)
    ensures r == CityEntry(up, city)
  {
    var entry := Entry(city, None, None, []);
    var coords := GetLocationCoords(up.apiKey, city, up.geocode);
    if coords.None? {
      return Ok(entry.(error := Some(LocationError)));
    }
    var payload := ReadPayload(OneCall(up.apiKey, up.onecall, coords.value));
    if payload.Raised? {
      return Raised;
    }
    if payload.value.NoData? {
      return Ok(entry.(error := Some(WeatherError)));
    }
    var current := CurrentOf(payload.value.current);
    if current.Raised? {
      return Raised;
    }
    entry := entry.(current := Some(current.value));
    if payload.value.daily.Some? {
      var forecast := ForecastEntries(payload.value.daily.value, up.formatDate);
      if forecast.Raised? {
        return Raised;
      }
      entry := entry.(forecast := forecast.value);
    }
    return Ok(entry);
  }

  /** `get_dashboard_data`: one record per city, appended in order. */
  method GetDashboardData(up: Upstream, cityList: seq<string>) returns (r: Outcome<seq<Entry>>)
    ensures r == DashboardOf(up, cityList)
  {
    var dashboard: seq<Entry> := [];
    for i := 0 to |cityList|
      invariant MapOutcome(EntryOf(up), cityList[..i]) == Ok(dashboard)
    {
      var entry := CityRecord(up, cityList[i]);
      if entry.Raised? {
        MapOutcomeRaises(EntryOf(up), cityList, i);
        return Raised;
      }
      MapOutcomeSnoc(EntryOf(up), cityList, i, dashboard, entry.value);
      dashboard := dashboard + [entry.value];
    }
    assert cityList[..|cityList|] == cityList;
    return Ok(dashboard);
  }

  /** A map marker: a city name with its coordinates. */
  datatype Marker = Marker(name: string, lat: Json, lon: Json)

  /** The cities shown on the map. */
  const MajorCities: seq<string> := [
    "서울", "부산", "대구", "인천", "광주", "대전", "울산", "세종",
    "수원", "용인", "고양", "창원", "성남", "부천", "화성", "남양주",
    "전주", "천안", "안산", "안양"
  ]

  /** The markers of the cities that resolve, in input order; cities that
      do not resolve are dropped. */
  function Markers(up: Upstream, cities: seq<string>): (r: seq<Marker>)
    ensures |r| <= |cities|
  {
    if cities == [] then []
    else
      var init, city := cities[..|cities| - 1], cities[|cities| - 1];
      Markers(up, init) +
        match Resolve(up.apiKey, city, up.geocode)
        case None => []
        case Some(coords) => [Marker(city, coords.lat, coords.lon)]
  }

  /** Every marker names a listed city, with that city's coordinates. */
  lemma {:induction false} MarkersSound(up: Upstream, cities: seq<string>)
    ensures forall m :: m in Markers(up, cities) ==>
      m.name in cities && Resolve(up.apiKey, m.name, up.geocode) == Some(Coords(m.lat, m.lon))
    decreases |cities|
  {
    if cities != [] {
      var init := cities[..|cities| - 1];
      MarkersSound(up, init);
      assert forall c :: c in init ==> c in cities;
    }
  }

  /** Markers keep the order of the input: the markers of a concatenation
      are the markers of each part, in turn. */
  lemma {:induction false} MarkersAppend(up: Upstream, a: seq<string>, b: seq<string>)
    ensures Markers(up, a + b) == Markers(up, a) + Markers(up, b)
    decreases |b|
  {
    if b == [] {
      assert a + b == a;
    } else {
      var b' := b[..|b| - 1];
      assert (a + b)[..|a + b| - 1] == a + b';
      MarkersAppend(up, a, b');
    }
  }

  /** Every city that resolves has its marker. */
  lemma {:induction false} MarkersComplete(up: Upstream, cities: seq<string>, i: nat)
    requires i < |cities| && Resolve(up.apiKey, cities[i], up.geocode).Some?
    ensures var c := Resolve(up.apiKey, cities[i], up.geocode).value;
      Marker(cities[i], c.lat, c.lon) in Markers(up, cities)
    decreases |cities|
  {
    if i < |cities| - 1 {
      var init := cities[..|cities| - 1];
      assert init[i] == cities[i];
      MarkersComplete(up, init, i);
    }
  }

  /** Without an API key no city resolves, so the map is empty. */
  lemma {:induction false} NoKeyNoMarkers(up: Upstream, cities: seq<string>)
    requires !HasKey(up.apiKey)
    ensures Markers(up, cities) == []
    decreases |cities|
  {
    if cities != [] {
      NoKeyNoMarkers(up, cities[..|cities| - 1]);
    }
  }

  /** `map_data`: resolve each major city and keep a marker for those that
      resolve. */
  method MapData(up: Upstream) returns (result: seq<Marker>)
    ensures result == Markers(up, MajorCities)
  {
    result := MarkersFor(up, MajorCities);
  }

  /** The `map_data` loop over a list of cities. */
  method MarkersFor(up: Upstream, cities: seq<string>) returns (result: seq<Marker>)
    ensures result == Markers(up, cities)
  {
    result := [];
    for i := 0 to |cities|
      invariant result == Markers(up, cities[..i])
    {
      assert cities[..i + 1][..i] == cities[..i];
      var coords := GetLocationCoords(up.apiKey, cities[i], up.geocode);
      if coords.Some? {
        result := result + [Marker(cities[i], coords.value.lat, coords.value.lon)];
      }
    }
    assert cities[..|cities|] == cities;
  }
}
