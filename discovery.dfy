/**
  The `/discovery` handler: checks the customer's coordinates, builds the
  three sections from the store's proximity query, reshapes each chosen
  document for the response, and lays the sections out in a fixed order.
 */
module Discovery {

  import opened Wrappers
  import opened Model
  import opened Fallback
  import opened Sections

  /** The body of every rejected request. */
  const BadRequestMessage: string :=
    "Oops! Missing request parameters or Improper data type(s) and/or out of bound value(s) encountered in request parameters."

  const PopularTitle: string := "Popular Restaurants"
  const NewTitle: string := "New Restaurants"
  const NearbyTitle: string := "Nearby Restaurants"

  /**
    The store's proximity query: for a customer point, every stored
    restaurant with its distance from that point, nearest first.
   */
  type ProximityQuery = Point -> seq<Hit>

  /** `launch_date` as a document field: as the store serialises it, or as rendered text. */
  datatype DateField = DateObject(day: int) | DateText(day: int)

  /** `location` as a document field: a GeoJSON point, or its bare coordinates list. */
  datatype LocationField = GeoJsonPoint(point: Point) | Coordinates(pair: seq<real>)

  /** One restaurant as a response document; it has no identifier field. */
  datatype Doc = Doc(
    blurhash: string,
    launchDate: DateField,
    location: LocationField,
    name: string,
    online: bool,
    popularity: real)

  datatype Section = Section(title: string, restaurants: seq<Doc>)

  datatype Body = Message(text: string) | Page(sections: seq<Section>)

  datatype Response = Response(status: nat, body: Body)

  /**
    The request check: both parameters present and numeric (None stands for
    a missing or unparsable one), latitude in [-90, 90] and longitude in
    [-180, 180], bounds included. The accepted point is stored as
    [longitude, latitude].
   */
  function ParseLocation(lat: Option<real>, lon: Option<real>): (r: Option<Point>)
    ensures r.Some? <==>
      lat.Some? && lon.Some? && -90.0 <= lat.value <= 90.0 && -180.0 <= lon.value <= 180.0
    ensures r.Some? ==> r.value.lon == lon.value && r.value.lat == lat.value
  {
    if lat.None? || lon.None? then
      None
    else if lat.value < -90.0 || lat.value > 90.0 || lon.value < -180.0 || lon.value > 180.0 then
      None
    else
      Some(Point(lon.value, lat.value))
  }

  /** A stored restaurant as the store serialises it once `id` is excluded. */
  function ToDoc(r: Restaurant): Doc
  {
    Doc(r.blurhash, DateObject(r.launchDate), GeoJsonPoint(r.location), r.name, r.online, r.popularity)
  }

  /** A document as it still comes from the store, before it is reshaped. */
  predicate Serialised(d: Doc)
  {
    d.launchDate.DateObject? && d.location.GeoJsonPoint?
  }

  /**
    A restaurant as the response shows it: name, blurhash, online flag and
    popularity unchanged, the launch date rendered as text and the location
    reduced to its coordinates [longitude, latitude]; the identifier is not
    part of a document at all.
   */
  function Present(r: Restaurant): (d: Doc)
    ensures d.name == r.name && d.blurhash == r.blurhash
    ensures d.online == r.online && d.popularity == r.popularity
    ensures d.location == Coordinates([r.location.lon, r.location.lat])
    ensures d.launchDate == DateText(r.launchDate)
  {
    var d := ToDoc(r);
    d.(launchDate := DateText(d.launchDate.day),
       location := Coordinates([d.location.point.lon, d.location.point.lat]))
  }

  /**
    The restaurant a shown document describes, given the identifier it
    leaves out; None when the document is not in the shape Present gives.
   */
  function Restore(d: Doc, id: nat): Option<Restaurant>
  {
    if d.launchDate.DateText? && d.location.Coordinates? && |d.location.pair| == 2 then
      Some(Restaurant(id, d.blurhash, d.launchDate.day, Point(d.location.pair[0], d.location.pair[1]),
                      d.name, d.online, d.popularity))
    else
      None
  }

  /** Presenting a restaurant loses nothing but its identifier. */
  lemma PresentRoundTrip(r: Restaurant)
    ensures Restore(Present(r), r.id) == Some(r)
    ensures forall id: nat :: Present(r.(id := id)) == Present(r)
  {
  }

  /** A section's hits as the response shows them. */
  function Presented(hits: seq<Hit>): (docs: seq<Doc>)
    ensures |docs| == |hits|
    ensures forall i :: 0 <= i < |hits| ==> docs[i] == Present(hits[i].restaurant)
  {
    seq(|hits|, i requires 0 <= i < |hits| => Present(hits[i].restaurant))
  }

  /**
    One section's reshaping step: the chosen documents are loaded into a
    list and rewritten in place, one at a time, first the launch date and
    then the location.
   */
  method Render(hits: seq<Hit>) returns (docs: seq<Doc>)
    ensures docs == Presented(hits)
  {
    var a := new Doc[|hits|](i requires 0 <= i < |hits| => ToDoc(hits[i].restaurant));
    for i := 0 to a.Length
      invariant forall k :: 0 <= k < i ==> a[k] == Present(hits[k].restaurant)
      invariant forall k :: i <= k < a.Length ==> a[k] == ToDoc(hits[k].restaurant) && Serialised(a[k])
    {
      a[i] := a[i].(launchDate := DateText(a[i].launchDate.day));
      a[i] := a[i].(location := Coordinates([a[i].location.point.lon, a[i].location.point.lat]));
    }
    docs := a[..];
  }

  /** The page: Popular, then New, then Nearby. */
  function Layout(popular: seq<Doc>, newest: seq<Doc>, nearby: seq<Doc>): Body
  {
    Page([Section(PopularTitle, popular), Section(NewTitle, newest), Section(NearbyTitle, nearby)])
  }

  /**
    What the handler answers. `threshold` is the day four calendar months
    before today, the first launch day the New section admits.
   */
  function Discover(lat: Option<real>, lon: Option<real>, query: ProximityQuery, threshold: int): (resp: Response)
    ensures resp.status == 400 <==> ParseLocation(lat, lon).None?
    ensures resp.status == 400 ==> resp.body == Message(BadRequestMessage)
    ensures resp.status != 400 ==> resp.status == 200 && resp.body.Page?
  {
    match ParseLocation(lat, lon)
    case None =>
      Response(400, Message(BadRequestMessage))
    case Some(p) =>
      var picks := Pick(query(p), threshold);
      Response(200, Layout(Presented(picks.popular), Presented(picks.newest), Presented(picks.nearby)))
  }

  /**
    An accepted request queries the store at [lon, lat] and answers 200
    with exactly three sections, Popular, New and Nearby in that order, each
    at most 10 restaurants, each the presentation of the section the fill
    rule picked.
   */
  lemma DiscoverPage(lat: real, lon: real, query: ProximityQuery, threshold: int)
    requires -90.0 <= lat <= 90.0 && -180.0 <= lon <= 180.0
    ensures var resp := Discover(Some(lat), Some(lon), query, threshold);
      var picks := Pick(query(Point(lon, lat)), threshold);
      && resp.status == 200
      && resp.body == Page([Section(PopularTitle, Presented(picks.popular)),
                            Section(NewTitle, Presented(picks.newest)),
                            Section(NearbyTitle, Presented(picks.nearby))])
      && |resp.body.sections[0].restaurants| <= PageSize
      && |resp.body.sections[1].restaurants| <= PageSize
      && |resp.body.sections[2].restaurants| <= PageSize
  {
    var point := Point(lon, lat);
    assert ParseLocation(Some(lat), Some(lon)) == Some(point);
    var picks := Pick(query(point), threshold);
    var body := Layout(Presented(picks.popular), Presented(picks.newest), Presented(picks.nearby));
    assert Discover(Some(lat), Some(lon), query, threshold) == Response(200, body);
  }

  /** The handler itself: reject, or query once, fill, reshape and lay out. */
  method GetDiscovery(lat: Option<real>, lon: Option<real>, query: ProximityQuery, threshold: int)
    returns (resp: Response)
    ensures resp == Discover(lat, lon, query, threshold)
  {
    var location := ParseLocation(lat, lon);
    if location.None? {
      return Response(400, Message(BadRequestMessage));
    }
    var hits := query(location.value);
    var online := Candidates(hits, true);
    var offline := Candidates(hits, false);

    var nearby := Render(NearbySection(online, offline));
    var popular := Render(PopularSection(online, offline));
    var newest := Render(NewSection(online, offline, threshold));

    resp := Response(200, Layout(popular, newest, nearby));
  }
}
