/**
 * The request side of `get_foursquare_data`: the query parameters built from
 * the command-line values, and the `results` member taken from the decoded
 * response. The HTTP call itself is a parameter (`api`).
 */
module Query {
  import opened Wrappers
  import opened Json

  /** Query parameters; a None value is Python's None left in the dict. */
  type Params = map<string, Option<string>>

  /** Python truthiness of the `address` argument: given and not the empty string. */
  predicate AddressGiven(address: Option<string>)
    ensures AddressGiven(address) <==>
      Truthy(match address case None => JNull case Some(a) => JString(a))
  {
    address.Some? && address.value != ""
  }

  /**
   * The parameter dict: `near` and `limit` for an address, else `ll`,
   * `radius` and `limit`. Exactly one of near and ll is a key of the dict,
   * near exactly when the address is truthy, and limit is always the given limit.
   */
  function BuildParams(address: Option<string>, latLong: Option<string>,
                       limit: Option<string>, radius: Option<string>): (p: Params)
    ensures ("near" in p <==> "ll" !in p) && ("near" in p <==> AddressGiven(address))
    ensures "limit" in p && p["limit"] == limit
  {
    if AddressGiven(address) then map["near" := address, "limit" := limit]
    else map["ll" := latLong, "radius" := radius, "limit" := limit]
  }

  /** Search by address: exactly the keys near and limit, both passed through. */
  lemma AddressParams(address: Option<string>, latLong: Option<string>,
                      limit: Option<string>, radius: Option<string>)
    requires AddressGiven(address)
    ensures var p := BuildParams(address, latLong, limit, radius);
      p.Keys == {"near", "limit"} && p["near"] == address && p["limit"] == limit
  {
  }

  /** Search by coordinates (address None or ""): exactly ll, radius and limit, passed through. */
  lemma CoordinateParams(address: Option<string>, latLong: Option<string>,
                         limit: Option<string>, radius: Option<string>)
    requires !AddressGiven(address)
    ensures var p := BuildParams(address, latLong, limit, radius);
      p.Keys == {"ll", "radius", "limit"} && p["ll"] == latLong
      && p["radius"] == radius && p["limit"] == limit
  {
  }

  /** Why the decoded response could not be used. */
  datatype FetchError =
    | NoResponse    // the transport failed or the body was not JSON
    | NotAnObject   // the body decoded to something without `.get`

  /** `resp.get("results", [])`: the results member, or an empty list when it is absent. */
  function ResultsOf(resp: Json): (r: Result<Json, FetchError>)
    ensures r.Err? <==> !resp.JObject?
    ensures r.Ok? ==> r.value == (match At(resp, [Member("results")])
                                  case Some(v) => v
                                  case None => JArray([]))
  {
    if !resp.JObject? then Err(NotAnObject)
    else Ok(GetOr(Some(resp), "results", JArray([])))
  }

  /**
   * `get_foursquare_data` without the network: `api` stands for `requests.get`
   * followed by `response.json()` and returns None where either raises.
   */
  function GetFoursquareData(address: Option<string>, latLong: Option<string>,
                             limit: Option<string>, radius: Option<string>,
                             api: Params -> Option<Json>): (r: Result<Json, FetchError>)
    ensures var reply := api(BuildParams(address, latLong, limit, radius));
      && (r == Err(NoResponse) <==> reply.None?)
      && (r == Err(NotAnObject) <==> reply.Some? && !reply.value.JObject?)
      && (r.Ok? ==> r.value == (match At(reply.value, [Member("results")])
                                case Some(v) => v
                                case None => JArray([])))
  {
    match api(BuildParams(address, latLong, limit, radius))
    case None => Err(NoResponse)
    case Some(resp) => ResultsOf(resp)
  }
}
