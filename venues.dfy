/**
 * `extract_venue_info`: every raw search result becomes one flat venue
 * record read from fixed paths in the item. Only `location.region` is
 * optional; any other missing member, or an empty `categories` list, raises
 * and the whole extraction fails.
 */
module Venues {
  import opened Wrappers
  import opened Json

  /** One venue row, with the columns of the `Venue` table except its id; values are copied as decoded. */
  datatype VenueRecord = VenueRecord(
    name: Json, category: Json, address: Json, region: Json,
    country: Json, latitude: Json, longitude: Json, distance: Json)

  /** The record's fields, in the order the dict literal evaluates them. */
  datatype Field = Name | Category | Address | Region | Country | Latitude | Longitude | Distance {

    /** Position in evaluation order: the first missing field is the one that raises. */
    function Rank(): nat {
      match this
      case Name => 0 case Category => 1 case Address => 2 case Region => 3
      case Country => 4 case Latitude => 5 case Longitude => 6 case Distance => 7
    }

    /** Every field but the region raises when its source is missing. */
    predicate Required() {
      this != Region
    }

    /** Where in a raw item the field is read from. */
    function Path(): seq<Step> {
      match this
      case Name => [Member("name")]
      case Category => [Member("categories"), Element(0), Member("name")]
      case Address => [Member("location"), Member("formatted_address")]
      case Region => [Member("location"), Member("region")]
      case Country => [Member("location"), Member("country")]
      case Latitude => [Member("geocodes"), Member("main"), Member("latitude")]
      case Longitude => [Member("geocodes"), Member("main"), Member("longitude")]
      case Distance => [Member("distance")]
    }
  }

  /** The value of one field of a record. */
  function Get(v: VenueRecord, f: Field): Json {
    match f
    case Name => v.name case Category => v.category case Address => v.address
    case Region => v.region case Country => v.country case Latitude => v.latitude
    case Longitude => v.longitude case Distance => v.distance
  }

  /** Turns a failed subscript into the error naming the field being read. */
  function Demand(j: Option<Json>, f: Field): Result<Json, Field> {
    if j.Some? then Ok(j.value) else Err(f)
  }

  /** The item holds every required path; the region path does not matter. */
  ghost predicate Complete(item: Json) {
    forall f: Field {:trigger At(item, f.Path())} :: f.Required() ==> At(item, f.Path()).Some?
  }

  /**
   * The record holds the value at each required path, and the region found
   * at location.region, or None when there is none.
   */
  ghost predicate RecordMatches(item: Json, v: VenueRecord) {
    && (forall f: Field {:trigger At(item, f.Path())} :: f.Required() ==> At(item, f.Path()) == Some(Get(v, f)))
    && v.region == (match At(item, Region.Path()) case Some(x) => x case None => JNull)
  }

  /** f is the first required field, in evaluation order, whose path is missing. */
  ghost predicate FirstMissing(item: Json, f: Field) {
    && f.Required() && At(item, f.Path()).None?
    && forall g: Field {:trigger At(item, g.Path())} :: g.Required() && g.Rank() < f.Rank() ==> At(item, g.Path()).Some?
  }

  /**
   * The body of the loop, the dict literal evaluated in order: one raw item
   * to one record, or the first field whose subscript raised. Only the
   * region is optional, so it is never the field that fails.
   */
  function ExtractOne(item: Json): (r: Result<VenueRecord, Field>)
    ensures r.Err? ==> r.error.Required()
  {
    var name :- Demand(Sub(Some(item), "name"), Name);
    var category :- Demand(Sub(Head(Sub(Some(item), "categories")), "name"), Category);
    var location := Sub(Some(item), "location");
    var address :- Demand(Sub(location, "formatted_address"), Address);
    var region := GetOr(location, "region", JNull);
    var country :- Demand(Sub(location, "country"), Country);
    var main := Sub(Sub(Some(item), "geocodes"), "main");
    var latitude :- Demand(Sub(main, "latitude"), Latitude);
    var longitude :- Demand(Sub(main, "longitude"), Longitude);
    var distance :- Demand(Sub(Some(item), "distance"), Distance);
    Ok(VenueRecord(name, category, address, region, country, latitude, longitude, distance))
  }

  /**
   * One item converts exactly when every required path exists; its record
   * then holds the values at those paths (the category from the first
   * category only) and the region at location.region, or None.
   */
  lemma ExtractOneValues(item: Json)
    ensures ExtractOne(item).Ok? <==> Complete(item)
    ensures ExtractOne(item).Ok? ==> RecordMatches(item, ExtractOne(item).value)
  {
    if ExtractOne(item).Ok? {
      var v := ExtractOne(item).value;
      forall f: Field | f.Required() ensures At(item, f.Path()) == Some(Get(v, f)) {
        PathsAgree(item, f);
      }
      PathsAgree(item, Region);
    } else {
      ExtractOneFails(item);
    }
  }

  /** A failure names the first required field, in evaluation order, whose path is missing. */
  lemma ExtractOneFails(item: Json)
    ensures ExtractOne(item).Err? ==> FirstMissing(item, ExtractOne(item).error)
  {
    if ExtractOne(item).Err? {
      var f := ExtractOne(item).error;
      forall g: Field | g.Required() && g.Rank() <= f.Rank()
        ensures g == f <==> At(item, g.Path()).None?
      {
        PathsAgree(item, g);
      }
    }
  }

  /** Python's chained subscripts for field f reach the same value as walking f.Path(). */
  lemma PathsAgree(item: Json, f: Field)
    ensures At(item, f.Path()) == FieldSource(item, f)
  {
    var p := f.Path();
    match f
    case Name =>
    case Distance =>
    case Category =>
      if Sub(Some(item), "categories").Some? {
        var cs := item.fields["categories"];
        assert At(item, p) == At(cs, p[1..]);
        if Head(Some(cs)).Some? {
          assert At(cs, p[1..]) == At(cs.items[0], p[2..]);
          assert p[2..] == [Member("name")];
          PathOfOne(cs.items[0], "name");
        }
      }
    case Address => PathOfTwo(item, "location", "formatted_address");
    case Region => PathOfTwo(item, "location", "region");
    case Country => PathOfTwo(item, "location", "country");
    case Latitude => PathOfThree(item, "geocodes", "main", "latitude");
    case Longitude => PathOfThree(item, "geocodes", "main", "longitude");
  }

  /** The value ExtractOne reads for field f (for the region: the subscript, not the `.get`). */
  function FieldSource(item: Json, f: Field): Option<Json> {
    match f
    case Name => Sub(Some(item), "name")
    case Category => Sub(Head(Sub(Some(item), "categories")), "name")
    case Address => Sub(Sub(Some(item), "location"), "formatted_address")
    case Region => Sub(Sub(Some(item), "location"), "region")
    case Country => Sub(Sub(Some(item), "location"), "country")
    case Latitude => Sub(Sub(Sub(Some(item), "geocodes"), "main"), "latitude")
    case Longitude => Sub(Sub(Sub(Some(item), "geocodes"), "main"), "longitude")
    case Distance => Sub(Some(item), "distance")
  }

  lemma PathOfOne(item: Json, a: string)
    ensures At(item, [Member(a)]) == Sub(Some(item), a)
  {
    if Sub(Some(item), a).Some? {
      assert At(item, [Member(a)]) == At(item.fields[a], []);
    }
  }

  lemma PathOfTwo(item: Json, a: string, b: string)
    ensures At(item, [Member(a), Member(b)]) == Sub(Sub(Some(item), a), b)
  {
    var p := [Member(a), Member(b)];
    if Sub(Some(item), a).Some? {
      assert At(item, p) == At(item.fields[a], p[1..]);
    }
  }

  lemma PathOfThree(item: Json, a: string, b: string, c: string)
    ensures At(item, [Member(a), Member(b), Member(c)]) == Sub(Sub(Sub(Some(item), a), b), c)
  {
    var p := [Member(a), Member(b), Member(c)];
    if Sub(Some(item), a).Some? {
      assert At(item, p) == At(item.fields[a], p[1..]);
      PathOfTwo(item.fields[a], b, c);
      assert p[1..] == [Member(b), Member(c)];
    }
  }

  /** Which item raised, and in which field. */
  datatype MissingField = MissingField(index: nat, field: Field)

  /** The first k items all convert. */
  ghost predicate ConvertsUpTo(items: seq<Json>, k: nat)
    requires k <= |items|
  {
    forall j :: 0 <= j < k ==> ExtractOne(items[j]).Ok?
  }

  /** records are the items' records, one per item, in order. */
  ghost predicate MapsTo(items: seq<Json>, records: seq<VenueRecord>) {
    && |records| == |items|
    && forall i :: 0 <= i < |items| ==> ExtractOne(items[i]).Ok? && records[i] == ExtractOne(items[i]).value
  }

  /**
   * The list the loop builds, defined on the prefix so that it follows the
   * loop. It succeeds exactly when every item converts, and then maps the
   * items one to one, in order, nothing dropped or merged. A failure is
   * reported at the first item that fails, with that item's failing field,
   * and carries no records.
   */
  function ExtractAll(items: seq<Json>): (r: Result<seq<VenueRecord>, MissingField>)
    ensures r.Ok? <==> ConvertsUpTo(items, |items|)
    ensures r.Ok? ==> MapsTo(items, r.value)
    ensures r.Err? ==>
      && r.error.index < |items|
      && ExtractOne(items[r.error.index]) == Err(r.error.field)
      && ConvertsUpTo(items, r.error.index)
    decreases |items|
  {
    if items == [] then Ok([])
    else
      var n := |items| - 1;
      var front := items[..n];
      PrefixAgrees(items, n);
      var done :- ExtractAll(front);
      match ExtractOne(items[n])
      case Err(f) => Err(MissingField(n, f))
      case Ok(v) =>
        MapsToAppend(items, done, v);
        Ok(done + [v])
  }

  /** Facts about the first n items carry over from the prefix items[..n]. */
  lemma PrefixAgrees(items: seq<Json>, n: nat)
    requires n < |items|
    ensures forall k :: 0 <= k <= n ==> (ConvertsUpTo(items[..n], k) <==> ConvertsUpTo(items, k))
    ensures forall i :: 0 <= i < n ==> items[..n][i] == items[i]
    ensures !ConvertsUpTo(items, n) ==> !ConvertsUpTo(items, |items|)
    ensures ExtractOne(items[n]).Err? ==> !ConvertsUpTo(items, |items|)
  {
    assert forall i :: 0 <= i < n ==> items[..n][i] == items[i];
  }

  /** Appending the last item's record to the prefix's records maps the whole list. */
  lemma MapsToAppend(items: seq<Json>, done: seq<VenueRecord>, v: VenueRecord)
    requires items != []
    requires MapsTo(items[..|items| - 1], done)
    requires ExtractOne(items[|items| - 1]) == Ok(v)
    ensures MapsTo(items, done + [v]) && ConvertsUpTo(items, |items|)
  {
    var n := |items| - 1;
    var front := items[..n];
    forall i | 0 <= i < |items|
      ensures ExtractOne(items[i]).Ok? && (done + [v])[i] == ExtractOne(items[i]).value
    {
      if i < n {
        assert front[i] == items[i];
        assert (done + [v])[i] == done[i];
      }
    }
  }

  /** The error reported is the first failure and no other: both directions. */
  lemma ExtractAllFirstFailure(items: seq<Json>, k: nat, f: Field)
    ensures ExtractAll(items) == Err(MissingField(k, f)) <==>
      && k < |items|
      && ExtractOne(items[k]) == Err(f)
      && forall j :: 0 <= j < k ==> ExtractOne(items[j]).Ok?
  {
    var r := ExtractAll(items);
    if r == Err(MissingField(k, f)) {
      assert ConvertsUpTo(items, k);
    }
    if k < |items| && ExtractOne(items[k]) == Err(f) && ConvertsUpTo(items, k) {
      assert !ExtractOne(items[k]).Ok?;
      assert r.Err?;
      var first := r.error.index;
      assert ExtractOne(items[first]).Err? && ConvertsUpTo(items, first);
      assert !(first < k);
      assert !(k < first);
      assert r.error.field == f;
    }
  }

  /** `extract_venue_info`: the loop appends one record per item, or stops at the first raise. */
  method ExtractVenueInfo(results: seq<Json>) returns (r: Result<seq<VenueRecord>, MissingField>)
    ensures r == ExtractAll(results)
  {
    var venues: seq<VenueRecord> := [];
    for i := 0 to |results|
      invariant ExtractAll(results[..i]) == Ok(venues)
    {
      assert results[..i + 1][..i] == results[..i];
      match ExtractOne(results[i])
      case Err(f) =>
        r := Err(MissingField(i, f));
        ExtractAllPrefixFailure(results, i + 1);
        return;
      case Ok(v) =>
        venues := venues + [v];
    }
    assert results[..|results|] == results;
    r := Ok(venues);
  }

  /** Once a prefix fails, the whole list fails with the same error. */
  lemma {:induction false} ExtractAllPrefixFailure(items: seq<Json>, i: nat)
    requires i <= |items|
    requires ExtractAll(items[..i]).Err?
    ensures ExtractAll(items) == ExtractAll(items[..i])
    decreases |items| - i
  {
    if i < |items| {
      assert items[..i + 1][..i] == items[..i];
      ExtractAllPrefixFailure(items, i + 1);
    } else {
      assert items[..i] == items;
    }
  }
}
