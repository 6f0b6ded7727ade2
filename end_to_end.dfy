/**
 The page and the relay together: the relay's response as the page parses it,
 and what the page ends up showing for each way the provider can answer.
 */
module EndToEnd {
  import opened JsValues
  import Relay
  import Client

  /** A relay response as the page parses it. JSON serialisation leaves out a
      key whose value is undefined, and the page reads such a key back as
      missing. The page does not look at the HTTP status. */
  function Parsed(response: Relay.Response): Client.RelayPayload {
    match response.body
    case ErrorBody(e) => Client.RelayPayload(Some(e), None, None, None, None, None, None, None)
    case ResultBody(r) =>
      Client.RelayPayload(None, r.address, Some(r.road), Some(r.suburb), Some(r.city), r.country, Some(r.lat), Some(r.lon))
  }

  /** The relay as the page reaches it: the fix's coordinates become the two
      query parameters, and the fetch gets the handler's response. */
  function Served(provider: (string, string) -> Relay.ProviderOutcome): (string, string) -> Client.Fetch {
    (lat: string, lon: string) => Client.Received(Parsed(Relay.Handle(Relay.Query(Some(lat), Some(lon)), provider)))
  }

  /** A provider that throws reaches the user as the relay's fixed failure
      text behind the page's own prefix; the results panel stays hidden. */
  lemma {:induction false} ProviderFailureReachesPage(lat: string, lon: string,
                                                      provider: (string, string) -> Relay.ProviderOutcome)
    requires lat != "" && lon != ""
    requires provider(lat, lon).Threw?
    ensures Client.FinalStep(Client.Position(lat, lon), Served(provider)) ==
              Client.ErrorShown("Could not get address: " + "Failed to get location information")
  {
    var response := Relay.Handle(Relay.Query(Some(lat), Some(lon)), provider);
    assert response == Relay.Response(500, Relay.ErrorBody(Relay.LookupFailed));
    assert Served(provider)(lat, lon) == Client.Received(Parsed(response));
  }

  /** A provider that reports an error reaches the user as the relay's fixed
      not-found text behind the page's own prefix. */
  lemma {:induction false} NotFoundReachesPage(lat: string, lon: string,
                                               provider: (string, string) -> Relay.ProviderOutcome)
    requires lat != "" && lon != ""
    requires provider(lat, lon).Answered? && Truthy(provider(lat, lon).error)
    ensures Client.FinalStep(Client.Position(lat, lon), Served(provider)) ==
              Client.ErrorShown("Could not get address: " + "Location not found")
  {
    var response := Relay.Handle(Relay.Query(Some(lat), Some(lon)), provider);
    assert response == Relay.Response(404, Relay.ErrorBody(Relay.NotFound));
    assert Served(provider)(lat, lon) == Client.Received(Parsed(response));
  }

  /** When the provider answers, the page shows the relay's record: the road,
      area and city texts are the relay's values (its own fallbacks are never
      empty, so the page's "Not available" never applies to them), and the
      coordinates are the fix's strings as they were sent. */
  lemma {:induction false} SuccessShowsRelayRecord(lat: string, lon: string,
                                                   provider: (string, string) -> Relay.ProviderOutcome)
    requires lat != "" && lon != ""
    requires provider(lat, lon).Answered? && !Truthy(provider(lat, lon).error)
    ensures var answer := provider(lat, lon);
            var r := Relay.Normalise(answer.displayName, answer.address, lat, lon);
            var step := Client.FinalStep(Client.Position(lat, lon), Served(provider));
            && step.ResultsShown?
            && Client.RenderResults(step.data).road == r.road
            && Client.RenderResults(step.data).suburb == r.suburb
            && Client.RenderResults(step.data).city == r.city
            && Client.RenderResults(step.data).coordinates == lat + ", " + lon
  {
    var response := Relay.Handle(Relay.Query(Some(lat), Some(lon)), provider);
    assert Served(provider)(lat, lon) == Client.Received(Parsed(response));
  }

  /** The provider's answer in the worked lookup below. */
  function SpringfieldAddress(): Relay.AddressObject {
    map["road" := "Main St", "city" := "Springfield", "country" := "Testland"]
  }

  /** The relay's record for the worked lookup: no suburb or neighbourhood, so
      the area is "Unknown area"; no state, so "Unknown state". */
  lemma SpringfieldRecord()
    ensures Relay.Normalise(Some("1 Main St, Springfield"), Some(SpringfieldAddress()), "40.0", "-75.0") ==
            Relay.LocationResult(Some("1 Main St, Springfield"), "Main St", "Unknown area", "Springfield",
                                 "Unknown state", Some("Testland"), None, "40.0", "-75.0")
  {
    var a := Some(SpringfieldAddress());
    assert Relay.Field(a, "road") == Some("Main St");
    assert Relay.Field(a, "suburb") == None && Relay.Field(a, "neighbourhood") == None;
    assert Relay.Field(a, "city") == Some("Springfield");
    assert Relay.Field(a, "state") == None && Relay.Field(a, "postcode") == None;
    assert Relay.Field(a, "country") == Some("Testland");
  }

  /** What the page receives in the worked lookup. */
  function SpringfieldPayload(): Client.RelayPayload {
    Client.RelayPayload(None, Some("1 Main St, Springfield"), Some("Main St"), Some("Unknown area"),
                        Some("Springfield"), Some("Testland"), Some("40.0"), Some("-75.0"))
  }

  /** The relay's response in the worked lookup, as the page receives it. */
  lemma SpringfieldResponse(provider: (string, string) -> Relay.ProviderOutcome)
    requires provider("40.0", "-75.0") == Relay.Answered(None, Some("1 Main St, Springfield"), Some(SpringfieldAddress()))
    ensures Served(provider)("40.0", "-75.0") == Client.Received(SpringfieldPayload())
  {
    SpringfieldRecord();
    var record := Relay.LocationResult(Some("1 Main St, Springfield"), "Main St", "Unknown area", "Springfield",
                                       "Unknown state", Some("Testland"), None, "40.0", "-75.0");
    var response := Relay.Handle(Relay.Query(Some("40.0"), Some("-75.0")), provider);
    assert response == Relay.Response(200, Relay.ResultBody(record));
    assert Parsed(response) == SpringfieldPayload();
    assert Served(provider)("40.0", "-75.0") == Client.Received(Parsed(response));
  }

  /** The worked lookup at 40.0, -75.0 ends in the results panel, showing the
      relay's record. */
  lemma SpringfieldLookup(provider: (string, string) -> Relay.ProviderOutcome)
    requires provider("40.0", "-75.0") == Relay.Answered(None, Some("1 Main St, Springfield"), Some(SpringfieldAddress()))
    ensures Client.FinalStep(Client.Position("40.0", "-75.0"), Served(provider)) == Client.ResultsShown(SpringfieldPayload())
  {
    SpringfieldResponse(provider);
  }

  /** The share text of the worked lookup: the area line carries the relay's
      "Unknown area", not the page's "Unknown". */
  lemma SpringfieldShareText()
    ensures Client.ShareText(SpringfieldPayload()) ==
              "📍 I'm here:" +
              "\n• Road: " + "Main St" +
              "\n• Area: " + "Unknown area" +
              "\n• City: " + "Springfield" +
              "\n• Country: " + "Testland" +
              "\n• Coordinates: " + "40.0" + ", " + "-75.0" +
              "\n• Full Address: " + "1 Main St, Springfield"
  {
    Client.ShareTextTemplate(SpringfieldPayload());
  }
}
