/** Location resolution of `get_location_coords`: the queries of
    `Candidates.Queries` are sent to the geocoder one by one, and the first
    reply that is a non-empty list whose first element carries `lat` and
    `lon` wins. The geocoding endpoint is an oracle from the query string
    to the decoded reply, `None` standing for a request that raised
    (transport error, 4xx/5xx status, or a body that is not JSON). */
module Resolver {
  import opened Wrappers
  import opened Json
  import opened NameCandidates
  import opened QueryOrder
  import opened Search

  /** A coordinate pair as the geocoder returned it; the values are only
      passed through. */
  datatype Coords = Coords(lat: Json, lon: Json)

  /** The country filter appended to every geocoding query. */
  const CountryFilter: string := ",KR"

  /** Python truthiness of the configured API key (`None` or empty: absent). */
  predicate HasKey(apiKey: Option<string>)
  {
    apiKey.Some? && apiKey.value != ""
  }

  /** What one geocoding query yields inside its `try` block: the first
      element's `lat` and `lon` when the decoded reply is a truthy list and
      that element is a dictionary holding both keys; `None` when the
      request raised, the reply is falsy or not a list, or indexing the
      first element raised (those exceptions are absorbed by `except`). */
  function Hit(geocode: string -> Option<Json>, q: string): (r: Option<Coords>)
    ensures var data := geocode(q + CountryFilter);
      && (r.Some? <==>
            && data.Some? && data.value.Arr? && data.value.items != []
            && data.value.items[0].Obj?
            && "lat" in data.value.items[0].fields && "lon" in data.value.items[0].fields)
      && (r.Some? ==>
            r.value == Coords(data.value.items[0].fields["lat"], data.value.items[0].fields["lon"]))
  {
    var data := geocode(q + CountryFilter);
    if data.Some? && Truthy(data.value) && data.value.Arr? then
      var first := data.value.items[0];
      if first.Obj? && "lat" in first.fields && "lon" in first.fields
      then Some(Coords(first.fields["lat"], first.fields["lon"]))
      else None
    else None
  }

  /** `Hit` as a function of the query alone. */
  function HitOf(geocode: string -> Option<Json>): (attempt: string -> Option<Coords>)
    ensures forall q :: attempt(q) == Hit(geocode, q)
  {
    q => Hit(geocode, q)
  }

  /** The result of `get_location_coords`: `None` without an API key, else
      the coordinates of the first query that hits, else `None`. */
  function Resolve(apiKey: Option<string>, regionName: string, geocode: string -> Option<Json>): (r: Option<Coords>)
    ensures !HasKey(apiKey) ==> r == None
  {
    if !HasKey(apiKey) then None
    else
      match FirstSome(HitOf(geocode), Queries(regionName))
      case None => None
      case Some((_, c)) => Some(c)
  }

  /** Resolution fails exactly when the key is absent or every query
      misses; otherwise it yields the hit of a query all of whose
      predecessors missed. */
  lemma ResolveFirstHit(apiKey: Option<string>, regionName: string, geocode: string -> Option<Json>)
    ensures var r := Resolve(apiKey, regionName, geocode);
      && (r.None? <==> !HasKey(apiKey) || NoneOf(HitOf(geocode), Queries(regionName)))
      && (r.Some? ==>
            exists j :: 0 <= j < |Queries(regionName)| &&
              Hit(geocode, Queries(regionName)[j]) == r && NoneOf(HitOf(geocode), Queries(regionName)[..j]))
  {
  }

  /** The name itself is the first query: when it hits, its coordinates
      are the result, whatever the later queries would have answered. */
  lemma {:induction false} FirstQueryHit(apiKey: Option<string>, regionName: string, geocode: string -> Option<Json>, c: Coords)
    requires HasKey(apiKey) && regionName != ""
    requires Hit(geocode, regionName) == Some(c)
    ensures Resolve(apiKey, regionName, geocode) == Some(c)
  {
    NameFirst(regionName);
    var qs := Queries(regionName);
    assert qs == [] + [regionName] + qs[1..];
    FirstSomeAt(HitOf(geocode), [], regionName, qs[1..], c);
  }

  /** A geocoder that answers every query with an empty list resolves
      nothing. */
  lemma EmptyRepliesNotFound(apiKey: Option<string>, regionName: string, geocode: string -> Option<Json>)
    requires forall q :: geocode(q) == Some(Arr([]))
    ensures Resolve(apiKey, regionName, geocode) == None
  {
    ResolveFirstHit(apiKey, regionName, geocode);
  }

  /** A hit on option `k`, after misses on every query sent before it,
      is the first hit of the whole list `before + Tries(options)`, and
      the queries sent so far are a prefix of that list. */
  lemma {:induction false} HitInOptions<U>(attempt: string -> Option<U>, before: seq<string>, options: seq<Option<string>>, k: nat, u: U)
    requires k < |options| && options[k].Some? && options[k].value != ""
    requires NoneOf(attempt, before + Tries(options[..k]))
    requires attempt(options[k].value) == Some(u)
    ensures var all := before + Tries(options);
      var sent := before + Tries(options[..k]) + [options[k].value];
      && |sent| <= |all|
      && sent == all[..|sent|]
      && FirstSome(attempt, all) == Some((|sent| - 1, u))
  {
    var q := options[k].value;
    var misses, rest := before + Tries(options[..k]), Tries(options[k + 1..]);
    TriesSnoc(options, k);
    TriesSplitAt(options, k + 1);
    AppendAssoc(before, Tries(options[..k]), [q]);
    AppendAssoc(before, Tries(options[..k]) + [q], rest);
    assert before + Tries(options) == misses + [q] + rest;
    PrefixOfAppend(misses, q, rest);
    FirstSomeAt(attempt, misses, q, rest, u);
  }

  /** `get_location_coords`: without an API key nothing is sent and the
      result is `None`; otherwise the candidates of the name are searched,
      one geocoding query (`Hit`) at a time. */
  method GetLocationCoords(apiKey: Option<string>, regionName: string, geocode: string -> Option<Json>)
    returns (coords: Option<Coords>)
    ensures coords == Resolve(apiKey, regionName, geocode)
  {
    if !HasKey(apiKey) {
      return None;
    }
    var sent;
    coords, sent := SearchCandidates(HitOf(geocode), Candidates(regionName));
  }

  /** The outer loop of `get_location_coords`: the candidates in order,
      returning at the first hit. `attempt` is the `try` block of one
      query: its coordinates, or `None` when it missed or raised. */
  method SearchCandidates<U>(attempt: string -> Option<U>, candidates: seq<string>)
    returns (found: Option<U>, sent: seq<string>)
    ensures found.None? ==> FirstSome(attempt, QueriesOf(candidates)).None?
    ensures found.None? ==> sent == QueriesOf(candidates)
    ensures found.Some? ==>
      && 0 < |sent| <= |QueriesOf(candidates)|
      && sent == QueriesOf(candidates)[..|sent|]
      && FirstSome(attempt, QueriesOf(candidates)) == Some((|sent| - 1, found.value))
  {
    sent := [];
    for i := 0 to |candidates|
      invariant sent == QueriesOf(candidates[..i])
      invariant NoneOf(attempt, sent)
    {
      QueriesOfStep(candidates, i);
      var options := QueryOptions(candidates[i]);
      assert options[..2] == options;
      found, sent := SearchOptions(attempt, options, sent);
      if found.Some? {
        QueriesOfSplitAt(candidates, i + 1);
        FirstSomeExtend(attempt, QueriesOf(candidates[..i + 1]), QueriesOf(candidates[i + 1..]), |sent| - 1, found.value);
        return;
      }
    }
    assert candidates[..|candidates|] == candidates;
    found := None;
  }

  /** The inner loop of `get_location_coords` over the options of one
      candidate: missing and empty options are skipped, and the first hit
      returns. `before` holds the queries already sent, all of which
      missed; the contract speaks of the whole list `before + Tries(options)`. */
  method SearchOptions<U>(attempt: string -> Option<U>, options: seq<Option<string>>, before: seq<string>)
    returns (found: Option<U>, sent: seq<string>)
    requires NoneOf(attempt, before)
    ensures found.None? ==> sent == before + Tries(options) && NoneOf(attempt, sent)
    ensures found.Some? ==>
      var all := before + Tries(options);
      && 0 < |sent| <= |all|
      && sent == all[..|sent|]
      && FirstSome(attempt, all) == Some((|sent| - 1, found.value))
  {
    sent := before;
    for k := 0 to |options|
      invariant sent == before + Tries(options[..k])
      invariant NoneOf(attempt, sent)
    {
      TriesSnoc(options, k);
      var q := options[k];
      if q.None? || q.value == "" {
        continue;
      }
      var hit := attempt(q.value);
      if hit.Some? {
        HitInOptions(attempt, before, options, k, hit.value);
        return hit, sent + [q.value];
      }
      NoneOfSnoc(attempt, sent, q.value);
      AppendAssoc(before, Tries(options[..k]), [q.value]);
      sent := sent + [q.value];
    }
    assert options[..|options|] == options;
    found := None;
  }
}
