# Weather dashboard back end, modelled in Dafny

This project models the core of `weather_info.py`: a small Flask service
that shows current weather and a 7-day forecast for Korean cities.

- **Name candidates** (`NameCandidates`): a region name becomes four
  candidates. They are the name itself, then the name with every `시`
  removed, every `구` removed, and every `군` removed. A static
  Korean-to-English alias table supplies a second query for a candidate.
- **Query order** (`QueryOrder`): the candidates' non-empty Korean and
  English queries, flattened in the order they are tried.
- **Location resolver** (`Resolver`): `get_location_coords` sends those
  queries to the geocoding endpoint one by one. It returns the
  coordinates of the first structurally valid reply and issues no
  further query. A failing query only advances the search. Without an
  API key it sends nothing. The first-success search itself is the
  generic `Search.FirstSome`.
- **Weather fetch and normaliser** (`Weather`): `get_onecall_weather`
  and the code that reads its payload. That code builds the fixed-shape
  current-conditions record (description defaults to `""`, rain to 0)
  and at most seven forecast days.
- **Dashboard aggregator and map markers** (`Dashboard`):
  `get_dashboard_data` builds one record per requested city, in order.
  `map_data` keeps a marker for every major city that resolves.
- **Single-city report** (`Routes`): the logic of the
  `/dashboard/city_weather` route.

The network endpoints are parameters, bundled in `Dashboard.Upstream`:

- `geocode` maps the query string, with `,KR` appended, to the decoded
  reply. `None` stands for a request that raised: a transport error, a
  4xx/5xx status, or a body that is not JSON.
- `onecall` maps a coordinate pair to the decoded payload. `None` means
  the request failed.
- `formatDate` stands for `datetime.fromtimestamp(dt).strftime('%Y-%m-%d')`.
  `None` means it raised.

The API key is an `Option<string>`. Python truthiness decides whether it
is present: a missing or empty key counts as absent.

Decoded JSON is the `Json.Json` datatype. A Python exception that the
code does not catch is the `Raised` outcome (`Wrappers.Outcome`). Three
operations are loops, so they are methods proved against specification
functions:

- `get_location_coords` is `Resolver.GetLocationCoords`. Its nested loop
  with `continue` and an early return is split into
  `Resolver.SearchCandidates` and `Resolver.SearchOptions`. These also
  return the queries sent, and they are generic in the per-query attempt.
- `get_dashboard_data` is `Dashboard.GetDashboardData`.
- `map_data` is `Dashboard.MapData`.

The forecast loop shared by the dashboard and the city route is
`Weather.ForecastEntries`. Both the dashboard and the forecast build one
record per item and raise at the first item that raises. That pattern is
defined once, as `Batch.MapOutcome`.

`get_dashboard_data` has no per-city exception handling. A malformed
payload for one city therefore raises out of the function and aborts the
whole call. Examples are an empty `weather` list in `current`, a daily
entry missing `dt`, or a list payload containing `"current"`.
`DashboardOf` raises exactly when some city's record raises.

## Model

| member | source | states |
|---|---|---|
| NameCandidates.RemoveAll | weather_info.py:30 | `str.replace(c, '')` removes every occurrence of `c` and keeps every other character with its count |
| NameCandidates.RemoveAllDistributes | weather_info.py:30 | `str.replace` works character by character and keeps the survivors in order: removing from a concatenation is removing from each part in turn |
| NameCandidates.RemoveAllSingle | weather_info.py:30 | a single character survives exactly when it is not the removed one. With `RemoveAllDistributes` this fixes the result character by character |
| NameCandidates.RemoveAllIdentity | weather_info.py:30 | removing a character leaves the name unchanged exactly when the character does not occur in it |
| NameCandidates.Candidates | weather_info.py:30 | exactly four candidates. The first is the name itself. Candidate k+1 is the name with every occurrence of suffix k (시, 구, 군) removed and nothing else changed: it is `RemoveAll` of that suffix, so the order of the other characters is kept |
| NameCandidates.CandidatesKeepDuplicates | weather_info.py:30 | a name without suffix characters yields four identical candidates, not deduplicated |
| NameCandidates.SiheungLosesLeadingSi | weather_info.py:30 | for 시흥 the `시` candidate is 흥: the strip is not limited to a trailing suffix |
| NameCandidates.QueryOptions | weather_info.py:31-49 | per candidate, the Korean string comes first. The English alias follows, present exactly when the candidate is a key of the table |
| QueryOrder.TriesSkipsEmpty | weather_info.py:49-51 | missing and empty options are skipped. Every query tried is a non-empty option that was offered |
| QueryOrder.KoreanBeforeAlias | weather_info.py:48-51 | a candidate's queries are the candidate (unless empty), then its alias (only if tabled and non-empty), in that order |
| QueryOrder.QueriesBounded | weather_info.py:30-51 | at most eight queries per name. Each is non-empty and is a candidate or a tabled alias |
| QueryOrder.NoSuffixRepeatsQueries | weather_info.py:30-51 | a name without suffix characters repeats its queries four times in a row |
| Search.FirstSome | weather_info.py:48-69 | first-success search: the reported item succeeds and every earlier one fails. The result is none exactly when every item fails |
| Resolver.Hit | weather_info.py:57-69 | one geocoding query hits exactly when the reply is a non-empty list whose first element is a dictionary holding `lat` and `lon`, and then yields those two values. A failed request, a falsy or non-list reply and a first element without both keys all miss, because the `except` absorbs the error |
| Resolver.Resolve | weather_info.py:25-28 | without a key nothing resolves. The search itself is stated by `ResolveFirstHit` |
| QueryOrder.NameFirst | weather_info.py:30-49 | a non-empty name is itself the first query sent |
| Resolver.ResolveFirstHit | weather_info.py:25-71 | resolution fails exactly when the key is absent or no query hits. Otherwise the result is the hit of some query all of whose predecessors missed |
| Resolver.FirstQueryHit | weather_info.py:30-66 | when the name itself hits, its coordinates are returned, whatever later queries would answer |
| Resolver.EmptyRepliesNotFound | weather_info.py:64-71 | a geocoder answering every query with an empty list resolves nothing |
| Search.FirstSomeExtend | weather_info.py:48-66 | a search that succeeds within a prefix stops at the same query whatever follows, so the queries of later candidates are never sent |
| Resolver.HitInOptions | weather_info.py:49-66 | a hit on an option after misses on everything sent before it is the first success of the candidate's query list, and what was sent is a prefix of that list |
| Resolver.SearchOptions | weather_info.py:49-69 | inner loop. On a miss of every option, the sent queries are the earlier ones plus this candidate's non-empty options, and all of them missed. On a hit, the sent queries are a prefix of that list ending at its first success |
| Resolver.SearchCandidates | weather_info.py:48-71 | outer loop. When nothing hits, exactly the full query sequence was sent and the search fails. On a hit, the queries sent are a prefix of the sequence ending at its first success, so no later query is sent |
| Resolver.GetLocationCoords | weather_info.py:25-71 | the result is `Resolve`. Without a key nothing is searched |
| Weather.OneCall | weather_info.py:110-126 | no request without a key, otherwise the endpoint's answer |
| Weather.ReadPayload | weather_info.py:139-154 | an absent payload and a falsy payload both mean no data. A dictionary has data exactly when it holds `current`, and its `daily` is read when present. Only a truthy non-dictionary can raise |
| Weather.CurrentDescription | weather_info.py:147 | a missing `weather` gives `""`. A present `weather` succeeds exactly when it is a non-empty list whose first element is a dictionary, and then gives that element's `description` (default `""`) |
| Weather.CurrentRain | weather_info.py:148 | a missing `rain` gives 0. A dictionary gives its `1h` (default 0); anything else raises |
| Weather.CurrentOf | weather_info.py:143-152 | the record succeeds exactly when `current` is a dictionary whose description and rain can be read. Every field is the provider's value or its default |
| Weather.CurrentDefaults | weather_info.py:147-148 | absent `weather` and `rain` never raise: the description is `""` and the rain is 0 |
| Weather.DayOf | weather_info.py:156-162 | a day succeeds exactly when the entry is a dictionary with `dt`, `temp`, `weather` and `wind_speed`, its `dt` formats, `temp` is a dictionary with `day`, and `weather` is a non-empty list whose first element is a dictionary with `description`. The date is the formatted `dt`, the temperature is `temp.day`, the description is `weather[0].description`, the rain defaults to 0, and the wind passes through |
| Batch.MapOutcome | weather_info.py:130-163 | one record per item, in input order. The list raises exactly when some item's record raises |
| Batch.MapOutcomeRaises | weather_info.py:130-164 | one item whose record raises makes the whole list raise: one malformed city payload aborts the whole dashboard |
| Batch.MapOutcomeSnoc | weather_info.py:155-163 | a further successful step appends its record to the list built so far |
| Weather.Window | weather_info.py:155 | `daily[:7]` is the first min(n, 7) entries |
| Weather.ForecastOf | weather_info.py:154-162 | no `daily` gives an empty forecast. At most seven days. For a list, the days are the records of the first seven entries in order, and the forecast raises exactly when one of them raises |
| Weather.ForecastRainDefault | weather_info.py:160 | a forecast day whose entry has no `rain` gets rain 0 |
| Weather.ForecastEntries | weather_info.py:154-162 | the appending loop yields exactly `ForecastOf` |
| Dashboard.CityEntry | weather_info.py:130-163 | the name is kept. An error excludes data, an errored entry has no forecast, and there are at most seven days |
| Dashboard.CityEntryOutcome | weather_info.py:131-163 | "Could not find location." exactly when resolution fails. "Could not fetch weather data." exactly when the city resolves without a usable payload. A full record carries the normalised `current` and `daily` of the resolved payload. The record raises exactly when the city resolves and then reading the payload, normalising `current` or normalising `daily` raises |
| Dashboard.CityEntryFull | weather_info.py:131-163 | a resolved city whose payload has a `current` and a `daily` section that both normalise gets the full record of exactly those sections |
| Dashboard.DashboardOf | weather_info.py:128-164 | same length as the input, entry i is city i's record, and the whole call raises exactly when some city's record raises |
| Dashboard.DashboardShape | weather_info.py:129-164 | entry i is named `city_list[i]`, duplicates and order kept. Each entry has either an error or data, with at most seven days |
| Dashboard.NoKeyDashboard | weather_info.py:132-136 | without a key every entry is the location error, and nothing raises |
| Dashboard.CityRecord | weather_info.py:131-163 | the loop body for one city yields `CityEntry` |
| Dashboard.GetDashboardData | weather_info.py:128-164 | the loop yields `DashboardOf` |
| Dashboard.Markers | weather_info.py:187-193 | at most one marker per city |
| Dashboard.MarkersSound | weather_info.py:188-192 | every marker names a listed city with that city's resolved coordinates |
| Dashboard.MarkersAppend | weather_info.py:187-192 | markers keep the input order: the markers of a concatenation are those of each part in turn |
| Dashboard.MarkersComplete | weather_info.py:188-192 | every city that resolves has its marker |
| Dashboard.NoKeyNoMarkers | weather_info.py:188-190 | without a key the map is empty |
| Dashboard.MarkersFor | weather_info.py:187-192 | the loop yields `Markers` |
| Dashboard.MapData | weather_info.py:176-193 | the markers of the twenty major cities |
| Routes.CityReplyOf | weather_info.py:200-205 | "No city specified." without a usable name. For a given name, the route raises exactly when that city's dashboard record raises |
| Routes.CityReplyCases | weather_info.py:196-233 | "No city specified." exactly when the name is missing or empty. "Could not find location." exactly when resolution fails. Raises exactly when the dashboard record of that city raises. A report names the city, which resolved, with at most seven days |
| Routes.ReplyMatchesDashboard | weather_info.py:195-233 | for any non-empty city name of a built dashboard, the route's code and the dashboard's code compute the same record from the same upstream answers: the same error, or the same current conditions and forecast |
| Routes.CityWeather | weather_info.py:195-233 | the route's code yields `CityReplyOf` |

## Left out

- HTTP transport (`requests.get`, `raise_for_status`, `resp.json`) is
  left out. The endpoints are function parameters. A failed request is
  `None`, and the response body is the decoded JSON value.
- The geocoding parameters `limit=1` and `appid`, and the fetch
  parameters `units`, `lang` and `appid`, are left out. They only shape
  the request that the endpoint parameter stands for. The country filter
  `,KR` is kept.
- `get_current_weather` and `get_weekly_forecast` are left out. Nothing
  in the code calls them.
- Loading the key file `.weather_api_key` (file I/O) is left out. The
  key is a parameter.
- `print` logging is left out; it has no effect on control flow.
- The Flask application, `render_template`, `jsonify` and the request
  object are left out. Route results are datatypes, and the `name`
  query parameter is an `Option<string>`.
- `datetime.fromtimestamp(...).strftime(...)` is a parameter. Its result
  depends on the local time zone.
- Float arithmetic is not modelled. Coordinates, temperatures and other
  numbers are only passed through as JSON values.
- The kind of exception raised is left out. Only the fact that an
  exception escapes is modelled, as `Raised`.
- Resolver.GetLocationCoords: like the Python function it returns only the
  coordinates. Which queries were sent is stated on
  `Resolver.SearchCandidates`, and it lists them without the `,KR`
  suffix that `Hit` appends.
- The endpoints are functions that do not change over time: the same
  query always gets the same answer. The real program sends a separate
  live request each time, and the answers can differ between requests.
  So the model does not capture a city queried twice (a duplicate in
  `city_list`, or the route and the dashboard asking for the same city)
  getting two different answers.
- `templates/cleanup_unused_templates.py` is left out. It is a
  filesystem clean-up script.
- The English alias of a concrete name such as 서울 is not stated in a
  lemma. Aliases are covered by the general properties of
  `QueryOptions` and `KoreanBeforeAlias`.
