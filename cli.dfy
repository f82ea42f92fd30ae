/**
 * `main` as a decision: which outcome one run reaches, from the parsed
 * flags and the reply of the places API. Printing, the environment, the API
 * key and the database session are not modelled; `Stored` is the point where
 * the records are handed to the session.
 */
module Cli {
  import opened Wrappers
  import opened Json
  import opened Query
  import opened Venues

  /** The four flags as they came on the command line; None where a flag was not given. */
  datatype Args = Args(address: Option<string>, latLong: Option<string>,
                       limit: Option<string>, radius: Option<string>)

  /**
   * What argparse lets through: the location group is required and mutually
   * exclusive, so exactly one of -a and -ll is given, and -l is required.
   */
  predicate Accepted(args: Args)
    ensures Accepted(args) <==>
      && (args.address.Some? || args.latLong.Some?)
      && !(args.address.Some? && args.latLong.Some?)
      && args.limit.Some?
  {
    var inGroup := (if args.address.Some? then 1 else 0) + (if args.latLong.Some? then 1 else 0);
    inGroup == 1 && args.limit.Some?
  }

  /** Why a run raised an exception that nothing catches. */
  datatype Crash =
    | Fetch(reason: FetchError)
    | ResultsNotAList              // a truthy `results` that is not a list: iterating it raises
    | Extraction(missing: MissingField)

  datatype Outcome =
    | UsageError                   // argparse rejects the flags before any request
    | NoResults                    // the "no results" message, then `sys.exit(1)`
    | Crashed(crash: Crash)        // an uncaught exception
    | Stored(venues: seq<VenueRecord>)  // records handed to the database session

  /**
   * The process exit status of each outcome (an uncaught Python exception
   * exits with 1): 0 only for storing, 2 only for rejected flags.
   */
  function ExitCode(o: Outcome): (r: nat)
    ensures r == 0 <==> o.Stored?
    ensures r == 2 <==> o.UsageError?
    ensures r == 1 <==> o.NoResults? || o.Crashed?
  {
    match o
    case UsageError => 2
    case NoResults => 1
    case Crashed(_) => 1
    case Stored(_) => 0
  }

  /** The results list `main` receives for these flags. */
  function Fetched(args: Args, api: Params -> Option<Json>): Result<Json, FetchError> {
    GetFoursquareData(args.address, args.latLong, args.limit, args.radius, api)
  }

  /**
   * One run of `main`. Rejected flags stop it before the API is asked; a
   * falsy results value stops it with "no results" before any extraction;
   * a transport or decoding failure, a truthy non-list results value, or an
   * item that does not convert, is a crash; otherwise the records are stored.
   */
  function Run(args: Args, api: Params -> Option<Json>): (o: Outcome)
    ensures o == UsageError <==> !Accepted(args)
    ensures o == NoResults <==>
      Accepted(args) && Fetched(args, api).Ok? && !Truthy(Fetched(args, api).value)
    ensures (o.Crashed? && o.crash.Fetch?) <==> Accepted(args) && Fetched(args, api).Err?
    ensures o == Crashed(ResultsNotAList) <==>
      && Accepted(args) && Fetched(args, api).Ok?
      && Truthy(Fetched(args, api).value) && !Fetched(args, api).value.JArray?
    ensures (o.Crashed? && o.crash.Extraction?) <==>
      && Accepted(args) && Fetched(args, api).Ok? && Fetched(args, api).value.JArray?
      && ExtractAll(Fetched(args, api).value.items).Err?
    ensures o.Crashed? && o.crash.Extraction? ==>
      && Accepted(args) && Fetched(args, api).Ok? && Fetched(args, api).value.JArray?
      && ExtractAll(Fetched(args, api).value.items) == Err(o.crash.missing)
  {
    if !Accepted(args) then UsageError
    else
      match Fetched(args, api)
      case Err(e) => Crashed(Fetch(e))
      case Ok(results) =>
        if !Truthy(results) then NoResults
        else
          match results
          case JArray(items) =>
            (match ExtractAll(items)
             case Ok(venues) => Stored(venues)
             case Err(m) => Crashed(Extraction(m)))
          case _ => Crashed(ResultsNotAList)
  }

  /**
   * The run stores records exactly when the flags are accepted, the results
   * are a non-empty list and every item extracts; the stored records are
   * then those items' records, one per item, in order.
   */
  lemma StoredRecords(args: Args, api: Params -> Option<Json>, venues: seq<VenueRecord>)
    ensures Run(args, api) == Stored(venues) <==>
      && Accepted(args)
      && Fetched(args, api).Ok? && Fetched(args, api).value.JArray?
      && var items := Fetched(args, api).value.items;
      && items != []
      && (forall i :: 0 <= i < |items| ==> ExtractOne(items[i]).Ok?)
      && |venues| == |items|
      && (forall i :: 0 <= i < |items| ==> venues[i] == ExtractOne(items[i]).value)
    ensures Run(args, api) == Stored(venues) ==> venues != [] && ExitCode(Run(args, api)) == 0
  {
    if Accepted(args) && Fetched(args, api).Ok? && Fetched(args, api).value.JArray? {
      var items := Fetched(args, api).value.items;
      if ExtractAll(items).Ok? && |venues| == |items|
         && (forall i :: 0 <= i < |items| ==> venues[i] == ExtractOne(items[i]).value) {
        assert ExtractAll(items).value == venues;
      }
    }
  }

  /**
   * `-a ""` passes argparse but is falsy, so the coordinate branch is taken
   * with no coordinates: the parameter dict holds `ll` set to None.
   */
  lemma EmptyAddressSendsNoLocation(args: Args)
    requires Accepted(args) && args.address == Some("")
    ensures var p := BuildParams(args.address, args.latLong, args.limit, args.radius);
      "near" !in p && "ll" in p && p["ll"] == None
  {
  }

  /** Otherwise accepted flags always send the location that was given, under its own key. */
  lemma LocationSent(args: Args)
    requires Accepted(args) && args.address != Some("")
    ensures var p := BuildParams(args.address, args.latLong, args.limit, args.radius);
      && (args.address.Some? ==> "near" in p && p["near"] == args.address)
      && (args.latLong.Some? ==> "ll" in p && p["ll"] == args.latLong)
      && "limit" in p && p["limit"].Some?
  {
  }

  /** Both -a and -ll given: rejected with status 2 before the API is consulted. */
  lemma BothLocationsRejected(api: Params -> Option<Json>)
    ensures var o := Run(Args(Some("Tunis"), Some("36.808,10.184"), Some("5"), None), api);
      o == UsageError && ExitCode(o) == 2
  {
  }

  /** Coordinates with radius 1000 and limit 10, and an empty results list: status 1, nothing stored. */
  lemma CoordinatesWithNoResults()
    ensures var o := Run(Args(None, Some("36.808,10.184"), Some("10"), Some("1000")),
                         p => Some(JObject(map["results" := JArray([])])));
      o == NoResults && ExitCode(o) == 1
  {
  }

  /** An item whose location lacks a region is stored with region None and every other field filled. */
  lemma RegionMissingStillStored()
    ensures var o := Run(Args(Some("Tunis"), None, Some("5"), None),
                         p => Some(JObject(map["results" := JArray([SampleVenue(SampleLocation())])])));
      o == Stored([SampleRecord()])
  {
    var item := SampleVenue(SampleLocation());
    var args := Args(Some("Tunis"), None, Some("5"), None);
    var api := (p: Params) => Some(JObject(map["results" := JArray([item])]));
    SampleConverts();
    assert ConvertsUpTo([item], 1);
    var all := ExtractAll([item]);
    assert all.Ok? && |all.value| == 1 && all.value[0] == SampleRecord();
    assert all.value == [SampleRecord()];
    assert Fetched(args, api) == Ok(JArray([item]));
  }

  /** The sample item without a region converts to the record of its values, region None. */
  lemma SampleConverts()
    ensures ExtractOne(SampleVenue(SampleLocation())) == Ok(SampleRecord())
  {
  }

  /** A location without a region member. */
  function SampleLocation(): map<string, Json> {
    map["formatted_address" := JString("Avenue Habib Bourguiba"), "country" := JString("TN")]
  }

  /** The record the sample item is expected to give: its values, and region None. */
  function SampleRecord(): VenueRecord {
    VenueRecord(JString("Cafe"), JString("Coffee Shop"), JString("Avenue Habib Bourguiba"),
                JNull, JString("TN"), JNumber(Number(36808, -3)), JNumber(Number(10184, -3)),
                JNumber(Number(120, 0)))
  }

  /** A raw result with the given location object. */
  function SampleVenue(location: map<string, Json>): Json {
    JObject(map[
      "name" := JString("Cafe"),
      "categories" := JArray([JObject(map["name" := JString("Coffee Shop")])]),
      "location" := JObject(location),
      "geocodes" := JObject(map["main" := JObject(map[
        "latitude" := JNumber(Number(36808, -3)), "longitude" := JNumber(Number(10184, -3))])]),
      "distance" := JNumber(Number(120, 0))])
  }
}
