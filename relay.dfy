/**
 The geocode relay: the `GET /api/location` handler. It validates the two
 query parameters, asks the reverse-geocoding provider once, and answers with
 an HTTP status and a JSON body: an error object, or a flat location record
 whose fields are picked from the provider's loosely keyed address object.
 */
module Relay {
  import opened JsValues

  /** The provider's nested `address` object: whichever keys it chose to send. */
  type AddressObject = map<string, string>

  /** The two query parameters; a parameter that is not in the URL is `None`. */
  datatype Query = Query(lat: Option<string>, lon: Option<string>)

  /** What the provider call comes to: the fetch or the JSON parse threw, or a
      parsed object with the fields the handler reads. */
  datatype ProviderOutcome =
    | Threw(cause: string)
    | Answered(error: Option<string>, displayName: Option<string>, address: Option<AddressObject>)

  /** The normalised record of a successful lookup. The four fields with a
      fallback are plain strings; the three passed through stay optional. */
  datatype LocationResult = LocationResult(
    address: Option<string>,
    road: string,
    suburb: string,
    city: string,
    state: string,
    country: Option<string>,
    postcode: Option<string>,
    lat: string,
    lon: string)

  datatype Body = ErrorBody(error: string) | ResultBody(result: LocationResult)

  datatype Response = Response(status: int, body: Body)

  const MissingCoordinates := "Latitude and longitude required"
  const NotFound := "Location not found"
  const LookupFailed := "Failed to get location information"

  const UnknownRoad := "Unknown road"
  const UnknownArea := "Unknown area"
  const UnknownCity := "Unknown city"
  const UnknownState := "Unknown state"

  /** `data.address?.key`: missing when there is no address object or no such key. */
  function Field(address: Option<AddressObject>, key: string): Option<string> {
    match address
    case Some(a) => if key in a then Some(a[key]) else None
    case None => None
  }

  /** The success record built from the provider's answer. Each fallback field
      takes its first truthy source in the order the relay lists them, or its
      literal; the other fields are copied unchanged. */
  function Normalise(displayName: Option<string>, address: Option<AddressObject>, lat: string, lon: string)
    : (r: LocationResult)
    ensures Truthy(Field(address, "road")) ==> r.road == Field(address, "road").value
    ensures !Truthy(Field(address, "road")) ==> r.road == "Unknown road"
    ensures Truthy(Field(address, "suburb")) ==> r.suburb == Field(address, "suburb").value
    ensures !Truthy(Field(address, "suburb")) && Truthy(Field(address, "neighbourhood")) ==>
              r.suburb == Field(address, "neighbourhood").value
    ensures !Truthy(Field(address, "suburb")) && !Truthy(Field(address, "neighbourhood")) ==>
              r.suburb == "Unknown area"
    ensures Truthy(Field(address, "city")) ==> r.city == Field(address, "city").value
    ensures !Truthy(Field(address, "city")) && Truthy(Field(address, "town")) ==>
              r.city == Field(address, "town").value
    ensures !Truthy(Field(address, "city")) && !Truthy(Field(address, "town")) &&
            Truthy(Field(address, "village")) ==>
              r.city == Field(address, "village").value
    ensures !Truthy(Field(address, "city")) && !Truthy(Field(address, "town")) &&
            !Truthy(Field(address, "village")) ==>
              r.city == "Unknown city"
    ensures Truthy(Field(address, "state")) ==> r.state == Field(address, "state").value
    ensures !Truthy(Field(address, "state")) ==> r.state == "Unknown state"
    ensures r.road != "" && r.suburb != "" && r.city != "" && r.state != ""
    ensures r.address == displayName
    ensures r.country == Field(address, "country") && r.postcode == Field(address, "postcode")
    ensures r.lat == lat && r.lon == lon
  {
    var road := FirstTruthy([Field(address, "road")], UnknownRoad);
    var suburb := FirstTruthy([Field(address, "suburb"), Field(address, "neighbourhood")], UnknownArea);
    var city := FirstTruthy([Field(address, "city"), Field(address, "town"), Field(address, "village")], UnknownCity);
    var state := FirstTruthy([Field(address, "state")], UnknownState);
    assert FirstTruthyAt([Field(address, "suburb"), Field(address, "neighbourhood")], 1) ==>
      suburb == Field(address, "neighbourhood").value;
    assert FirstTruthyAt([Field(address, "city"), Field(address, "town"), Field(address, "village")], 1) ==>
      city == Field(address, "town").value;
    assert FirstTruthyAt([Field(address, "city"), Field(address, "town"), Field(address, "village")], 2) ==>
      city == Field(address, "village").value;
    LocationResult(displayName, road, suburb, city, state,
                   Field(address, "country"), Field(address, "postcode"), lat, lon)
  }

  /** The handler: `provider` stands for the reverse-geocoding call, made with
      the two query strings. */
  function Handle(query: Query, provider: (string, string) -> ProviderOutcome): (r: Response)
    ensures r.status in {200, 400, 404, 500}
    ensures r.status == 400 <==> !Truthy(query.lat) || !Truthy(query.lon)
    ensures r.status == 400 ==> r.body == ErrorBody("Latitude and longitude required")
    ensures r.status == 500 <==>
              Truthy(query.lat) && Truthy(query.lon) && provider(query.lat.value, query.lon.value).Threw?
    ensures r.status == 500 ==> r.body == ErrorBody("Failed to get location information")
    ensures r.status == 404 <==>
              Truthy(query.lat) && Truthy(query.lon) &&
              var answer := provider(query.lat.value, query.lon.value);
              answer.Answered? && Truthy(answer.error)
    ensures r.status == 404 ==> r.body == ErrorBody("Location not found")
    ensures r.status == 200 ==>
              var answer := provider(query.lat.value, query.lon.value);
              r.body == ResultBody(Normalise(answer.displayName, answer.address, query.lat.value, query.lon.value))
  {
    if !Truthy(query.lat) || !Truthy(query.lon) then
      Response(400, ErrorBody(MissingCoordinates))
    else
      var lat, lon := query.lat.value, query.lon.value;
      match provider(lat, lon)
      case Threw(_) => Response(500, ErrorBody(LookupFailed))
      case Answered(error, displayName, address) =>
        if Truthy(error) then Response(404, ErrorBody(NotFound))
        else Response(200, ResultBody(Normalise(displayName, address, lat, lon)))
  }

  /** A request without both coordinates is answered the same whatever the
      provider would say: the provider is not consulted. */
  lemma MissingCoordinatesSkipProvider(query: Query, p1: (string, string) -> ProviderOutcome,
                                       p2: (string, string) -> ProviderOutcome)
    requires !Truthy(query.lat) || !Truthy(query.lon)
    ensures Handle(query, p1) == Handle(query, p2)
  {
  }

  /** A provider failure is reported without any trace of its cause. */
  lemma FailureHidesCause(query: Query, p1: (string, string) -> ProviderOutcome,
                          p2: (string, string) -> ProviderOutcome)
    requires Truthy(query.lat) && Truthy(query.lon)
    requires p1(query.lat.value, query.lon.value).Threw? && p2(query.lat.value, query.lon.value).Threw?
    ensures Handle(query, p1) == Handle(query, p2)
  {
  }

  /** Without an address object the four fallback fields take exactly their
      literals and the passed-through address fields are missing. */
  lemma NoAddressYieldsDefaults(displayName: Option<string>, lat: string, lon: string)
    ensures var r := Normalise(displayName, None, lat, lon);
            r.road == "Unknown road" && r.suburb == "Unknown area" &&
            r.city == "Unknown city" && r.state == "Unknown state" &&
            r.country == None && r.postcode == None
  {
  }

  /** The relay's precedence chains are the source's left-associative `||`
      expressions, `a.suburb || a.neighbourhood || 'Unknown area'` and
      `a.city || a.town || a.village || 'Unknown city'`. */
  lemma {:induction false} NormaliseFollowsOrChains(displayName: Option<string>, address: Option<AddressObject>,
                                                    lat: string, lon: string)
    ensures var r := Normalise(displayName, address, lat, lon);
            Some(r.road) == Or(Field(address, "road"), Some("Unknown road")) &&
            Some(r.suburb) == Or(Or(Field(address, "suburb"), Field(address, "neighbourhood")), Some("Unknown area")) &&
            Some(r.city) == Or(Or(Or(Field(address, "city"), Field(address, "town")), Field(address, "village")),
                               Some("Unknown city")) &&
            Some(r.state) == Or(Field(address, "state"), Some("Unknown state"))
  {
    var suburb := [Field(address, "suburb"), Field(address, "neighbourhood")];
    var city := [Field(address, "city"), Field(address, "town"), Field(address, "village")];
    FirstTruthyIsOrChain(suburb, UnknownArea);
    FirstTruthyIsOrChain(city, UnknownCity);
    assert (suburb + [Some(UnknownArea)])[..2] == suburb;
    assert (city + [Some(UnknownCity)])[..3] == city;
    assert city[..2] == city[..|city| - 1];
  }
}
